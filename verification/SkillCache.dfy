// The per-tenant skill cache and its .reload marker
// (examples/booking/microagents/loader.py, load_skill), against the writers
// that change the installed bundles (examples/booking/surface/admin_v2.py).
module SkillCache {
  import opened Basics

  datatype Skill = Skill(prompt: string, manifest: string)

  // A directory <role>@<version>; `version` is what _parse_version makes of it.
  datatype Bundle = Bundle(
    role: string, name: string, version: Option<seq<int>>, disabled: bool, prompt: Option<string>, manifest: Option<string>)

  // A tenant's agents directory, in the order it is listed.
  type Disk = seq<Bundle>

  datatype Key = Key(tenant: Option<string>, role: string)

  // ------------------------------------------------------------ the best bundle

  // Python compares tuples element by element; a proper prefix is smaller.
  predicate Newer(a: seq<int>, b: seq<int>) {
    if a == [] then false
    else if b == [] then true
    else if a[0] != b[0] then a[0] > b[0]
    else Newer(a[1..], b[1..])
  }

  lemma {:induction false} NewerTotal(a: seq<int>, b: seq<int>)
    ensures !(Newer(a, b) && Newer(b, a))
    ensures a == b || Newer(a, b) || Newer(b, a)
  {
    if a != [] && b != [] && a[0] == b[0] {
      NewerTotal(a[1..], b[1..]);
      assert a == [a[0]] + a[1..] && b == [b[0]] + b[1..];
    }
  }

  lemma {:induction false} NewerTransitive(a: seq<int>, b: seq<int>, c: seq<int>)
    requires Newer(a, b) && Newer(b, c)
    ensures Newer(a, c)
  {
    if c != [] && a[0] == b[0] && b[0] == c[0] {
      NewerTransitive(a[1..], b[1..], c[1..]);
    }
  }

  // The versions part at place k, and `a` is the higher there, or goes on where
  // `b` ends.
  ghost predicate PartsAbove(a: seq<int>, b: seq<int>, k: nat) {
    && k <= |a| && k <= |b| && a[..k] == b[..k]
    && ((k == |b| && k < |a|) || (k < |a| && k < |b| && a[k] > b[k]))
  }

  ghost predicate Above(a: seq<int>, b: seq<int>) {
    exists k: nat :: PartsAbove(a, b, k)
  }

  lemma HeadDecides(a: seq<int>, b: seq<int>, k: nat)
    requires PartsAbove(a, b, k) && a != [] && b != []
    ensures k == 0 || a[0] == b[0]
  {
    if k > 0 {
      assert a[..k][0] == a[0] && b[..k][0] == b[0];
    }
  }

  lemma {:induction false} NewerIff(a: seq<int>, b: seq<int>)
    ensures Newer(a, b) <==> Above(a, b)
  {
    if a == [] {
    } else if b == [] {
      assert PartsAbove(a, b, 0);
    } else if a[0] != b[0] {
      if a[0] > b[0] {
        assert PartsAbove(a, b, 0);
      }
      if Above(a, b) {
        var k: nat :| PartsAbove(a, b, k);
        HeadDecides(a, b, k);
      }
    } else {
      NewerIff(a[1..], b[1..]);
      if Newer(a[1..], b[1..]) {
        var k: nat :| PartsAbove(a[1..], b[1..], k);
        assert a[..k + 1] == [a[0]] + a[1..][..k] && b[..k + 1] == [b[0]] + b[1..][..k];
        assert PartsAbove(a, b, k + 1);
      }
      if Above(a, b) {
        var k: nat :| PartsAbove(a, b, k);
        assert k > 0;
        assert a[1..][..k - 1] == a[..k][1..] && b[1..][..k - 1] == b[..k][1..];
        assert PartsAbove(a[1..], b[1..], k - 1);
      }
    }
  }

  predicate Usable(b: Bundle, role: string) {
    b.role == role && !b.disabled && b.version.Some?
  }

  // The first of the newest usable bundles for a role.
  ghost predicate IsBest(disk: Disk, role: string, at: Option<nat>) {
    match at
    case None => forall i :: 0 <= i < |disk| ==> !Usable(disk[i], role)
    case Some(k) =>
      && k < |disk| && Usable(disk[k], role)
      && forall i :: 0 <= i < |disk| && Usable(disk[i], role) ==>
           !Newer(disk[i].version.value, disk[k].version.value)
           && (i < k ==> Newer(disk[k].version.value, disk[i].version.value))
  }

  // The bundle that is used, or that there is none: it is enabled, for the role,
  // with a readable version; no other such bundle has a higher version, and
  // none listed earlier has the same.
  ghost predicate IsChosen(disk: Disk, role: string, at: Option<nat>) {
    match at
    case None => forall i :: 0 <= i < |disk| && disk[i].role == role && !disk[i].disabled ==> disk[i].version.None?
    case Some(k) =>
      && k < |disk| && disk[k].role == role && !disk[k].disabled && disk[k].version.Some?
      && forall i :: 0 <= i < |disk| && disk[i].role == role && !disk[i].disabled && disk[i].version.Some? ==>
           && !Above(disk[i].version.value, disk[k].version.value)
           && (i < k ==> Above(disk[k].version.value, disk[i].version.value))
  }

  lemma BestIsChosen(disk: Disk, role: string)
    ensures IsChosen(disk, role, Best(disk, role))
  {
    BestIsBest(disk, role);
    var best := Best(disk, role);
    if best.Some? {
      var k := best.value;
      forall i | 0 <= i < |disk| && Usable(disk[i], role)
        ensures !Above(disk[i].version.value, disk[k].version.value)
        ensures i < k ==> Above(disk[k].version.value, disk[i].version.value)
      {
        NewerIff(disk[i].version.value, disk[k].version.value);
        NewerIff(disk[k].version.value, disk[i].version.value);
      }
    } else {
      assert forall i :: 0 <= i < |disk| ==> !Usable(disk[i], role);
    }
  }

  function Best(disk: Disk, role: string): Option<nat> {
    if disk == [] then None
    else
      var n := |disk| - 1;
      var before := Best(disk[..n], role);
      if !Usable(disk[n], role) then before
      else if before.None? || (before.value < n && disk[before.value].version.Some? && Newer(disk[n].version.value, disk[before.value].version.value)) then Some(n)
      else before
  }

  // Every usable bundle before place n is older than version v.
  ghost predicate AllOlder(disk: Disk, role: string, n: nat, v: seq<int>)
    requires n <= |disk|
  {
    forall i :: 0 <= i < n && Usable(disk[i], role) ==> Newer(v, disk[i].version.value) && !Newer(disk[i].version.value, v)
  }

  lemma BeatsTheBest(disk: Disk, role: string, n: nat, k: nat, v: seq<int>)
    requires n <= |disk| && k < n && IsBest(disk[..n], role, Some(k)) && Newer(v, disk[k].version.value)
    ensures AllOlder(disk, role, n, v)
  {
    var w := disk[k].version.value;
    forall i | 0 <= i < n && Usable(disk[i], role)
      ensures Newer(v, disk[i].version.value) && !Newer(disk[i].version.value, v)
    {
      var u := disk[i].version.value;
      assert disk[..n][i] == disk[i] && disk[..n][k] == disk[k];
      NewerTotal(u, w);
      NewerTotal(u, v);
      if Newer(w, u) {
        NewerTransitive(v, w, u);
      }
    }
  }

  lemma {:induction false} BestIsBest(disk: Disk, role: string)
    ensures IsBest(disk, role, Best(disk, role))
  {
    if disk != [] {
      var n := |disk| - 1;
      BestIsBest(disk[..n], role);
      var before := Best(disk[..n], role);
      assert forall i :: 0 <= i < n ==> disk[..n][i] == disk[i];
      if Usable(disk[n], role) {
        var v := disk[n].version.value;
        if before.None? {
          assert AllOlder(disk, role, n, v);
          NewerTotal(v, v);
        } else if Newer(v, disk[before.value].version.value) {
          BeatsTheBest(disk, role, n, before.value, v);
          NewerTotal(v, v);
        }
      }
    }
  }

  // for d in agents_dir.glob(...): ...
  method TenantBundleDir(disk: Disk, role: string) returns (best: Option<nat>)
    ensures best == Best(disk, role) && IsChosen(disk, role, best)
  {
    best := None;
    for i := 0 to |disk|
      invariant best == Best(disk[..i], role)
      invariant best.Some? ==> best.value < i && disk[best.value].version.Some?
    {
      assert disk[..i + 1][..i] == disk[..i];
      if Usable(disk[i], role) {
        if best.None? || Newer(disk[i].version.value, disk[best.value].version.value) {
          best := Some(i);
        }
      }
    }
    assert disk[..|disk|] == disk;
    BestIsChosen(disk, role);
  }

  // ------------------------------------------------------------ reading without a cache

  function NameAt(disk: Disk, name: string): (i: nat)
    ensures i <= |disk|
    ensures i < |disk| ==> disk[i].name == name
    ensures forall j :: 0 <= j < i ==> disk[j].name != name
  {
    if disk == [] then 0 else if disk[0].name == name then 0 else 1 + NameAt(disk[1..], name)
  }

  function PromptOf(disk: Disk, name: string): Option<string> {
    var i := NameAt(disk, name);
    if i < |disk| then disk[i].prompt else None
  }

  function ManifestOf(disk: Disk, name: string): Option<string> {
    var i := NameAt(disk, name);
    if i < |disk| then disk[i].manifest else None
  }

  function ReadBundle(prompt: Option<string>, manifest: Option<string>): Option<Skill> {
    if prompt.Some? && manifest.Some? then Some(Skill(prompt.value, manifest.value)) else None
  }

  // What a read of the disk with nobody writing returns; None is FileNotFoundError.
  function Uncached(disk: Disk, shipped: map<string, Skill>, role: string): Option<Skill> {
    var best := Best(disk, role);
    if best.Some? && best.value < |disk| then
      ReadBundle(PromptOf(disk, disk[best.value].name), ManifestOf(disk, disk[best.value].name))
    else if role in shipped then Some(shipped[role])
    else None
  }

  // The files of the first directory of that name, if there is one.
  ghost predicate FilesOf(disk: Disk, name: string, prompt: Option<string>, manifest: Option<string>) {
    if forall i :: 0 <= i < |disk| ==> disk[i].name != name then prompt.None? && manifest.None?
    else
      exists i :: 0 <= i < |disk| && disk[i].name == name && (forall j :: 0 <= j < i ==> disk[j].name != name)
        && prompt == disk[i].prompt && manifest == disk[i].manifest
  }

  // What `skill` has to be: the chosen bundle, if both its files are there; the
  // shipped one when there is no bundle to choose.
  ghost predicate IsFreshBy(disk: Disk, shipped: map<string, Skill>, role: string, skill: Option<Skill>,
                            at: Option<nat>, prompt: Option<string>, manifest: Option<string>) {
    && IsChosen(disk, role, at)
    && (at.Some? ==> FilesOf(disk, disk[at.value].name, prompt, manifest))
    && if at.None? then skill == (if role in shipped then Some(shipped[role]) else None)
       else if prompt.None? || manifest.None? then skill == None
       else skill == Some(Skill(prompt.value, manifest.value))
  }

  ghost predicate IsFresh(disk: Disk, shipped: map<string, Skill>, role: string, skill: Option<Skill>) {
    exists at: Option<nat>, prompt: Option<string>, manifest: Option<string> :: IsFreshBy(disk, shipped, role, skill, at, prompt, manifest)
  }

  lemma FilesAreFirst(disk: Disk, name: string)
    ensures FilesOf(disk, name, PromptOf(disk, name), ManifestOf(disk, name))
  {
    var i := NameAt(disk, name);
    if i < |disk| {
      assert disk[i].name == name;
    }
  }

  lemma UncachedIsFresh(disk: Disk, shipped: map<string, Skill>, role: string)
    ensures IsFresh(disk, shipped, role, Uncached(disk, shipped, role))
  {
    var at := Best(disk, role);
    BestIsChosen(disk, role);
    var prompt, manifest: Option<string> := None, None;
    if at.Some? {
      var name := disk[at.value].name;
      FilesAreFirst(disk, name);
      prompt, manifest := PromptOf(disk, name), ManifestOf(disk, name);
    }
    assert IsFreshBy(disk, shipped, role, Uncached(disk, shipped, role), at, prompt, manifest);
  }

  // ------------------------------------------------------------ one loader, many writers

  function DiskOf(disks: map<string, Disk>, tenant: string): Disk {
    if tenant in disks then disks[tenant] else []
  }

  function Pending(writers: map<string, nat>, tenant: string): nat {
    if tenant in writers then writers[tenant] else 0
  }

  class Loader {
    const shipped: map<string, Skill>  // the bundles under SKILLS_DIR
    var disks: map<string, Disk>
    var marker: set<string>
    var writers: map<string, nat>      // writers between their first change and their touch
    var cache: map<Key, Skill>

    // A change may still be on its way to the loader: the marker is there, or
    // a writer will still touch it.
    predicate Dirty(tenant: string)
      reads this
    {
      tenant in marker || Pending(writers, tenant) > 0
    }

    // A cached skill is what a fresh read returns, unless the tenant is dirty.
    ghost predicate Coherent()
      reads this
    {
      && (forall t, r :: Key(Some(t), r) in cache ==>
            Dirty(t) || Uncached(DiskOf(disks, t), shipped, r) == Some(cache[Key(Some(t), r)]))
      && (forall r :: Key(None, r) in cache ==> r in shipped && cache[Key(None, r)] == shipped[r])
    }

    constructor (shipped: map<string, Skill>)
      ensures Coherent() && this.shipped == shipped && cache == map[]
    {
      this.shipped, disks, marker, writers, cache := shipped, map[], {}, map[], map[];
    }

    // ---------------------------------------------------------- writers

    method BeginWrite(tenant: string)
      requires Coherent()
      modifies this`writers
      ensures Coherent() && writers == old(writers)[tenant := Pending(old(writers), tenant) + 1]
      ensures writers[tenant] == 1 + if tenant in old(writers) then old(writers)[tenant] else 0
    {
      writers := writers[tenant := Pending(writers, tenant) + 1];
      assert forall t :: old(Dirty(t)) ==> Dirty(t);
    }

    // install, patch and uninstall change files in any number of steps.
    method ChangeFiles(tenant: string, disk: Disk)
      requires Coherent() && Pending(writers, tenant) > 0
      modifies this`disks
      ensures Coherent() && disks == old(disks)[tenant := disk]
    {
      disks := disks[tenant := disk];
      assert forall t :: t != tenant ==> DiskOf(disks, t) == DiskOf(old(disks), t);
    }

    // _touch_reload, the last thing a writer does.
    method TouchReload(tenant: string)
      requires Coherent() && Pending(writers, tenant) > 0
      modifies this`marker, this`writers
      ensures Coherent() && marker == old(marker) + {tenant}
      ensures writers == old(writers)[tenant := Pending(old(writers), tenant) - 1]
    {
      marker := marker + {tenant};
      writers := writers[tenant := Pending(writers, tenant) - 1];
      assert forall t :: old(Dirty(t)) ==> Dirty(t);
    }

    // Between any two steps of the loader, writers take any number of theirs;
    // none for `tenant` if it is quiet.
    method Writers(tenant: string, quiet: bool)
      requires Coherent() && (quiet ==> Pending(writers, tenant) == 0)
      modifies this`disks, this`marker, this`writers
      ensures Coherent() && (quiet ==> Pending(writers, tenant) == 0)
      ensures quiet ==> DiskOf(disks, tenant) == DiskOf(old(disks), tenant) && (tenant in marker <==> tenant in old(marker))
      ensures !Dirty(tenant) ==> !old(Dirty(tenant)) && DiskOf(disks, tenant) == DiskOf(old(disks), tenant)
    {
      var n: nat :| 0 <= n;
      for i := 0 to n
        invariant Coherent() && (quiet ==> Pending(writers, tenant) == 0)
        invariant quiet ==> DiskOf(disks, tenant) == DiskOf(old(disks), tenant) && (tenant in marker <==> tenant in old(marker))
        invariant !Dirty(tenant) ==> !old(Dirty(tenant)) && DiskOf(disks, tenant) == DiskOf(old(disks), tenant)
      {
        WriterStep(tenant, quiet);
      }
    }

    method WriterStep(tenant: string, quiet: bool)
      requires Coherent() && (quiet ==> Pending(writers, tenant) == 0)
      modifies this`disks, this`marker, this`writers
      ensures Coherent() && (quiet ==> Pending(writers, tenant) == 0)
      ensures quiet ==> DiskOf(disks, tenant) == DiskOf(old(disks), tenant) && (tenant in marker <==> tenant in old(marker))
      ensures !Dirty(tenant) ==> !old(Dirty(tenant)) && DiskOf(disks, tenant) == DiskOf(old(disks), tenant)
    {
      var t: string := *;
      if quiet && t == tenant {
        return;
      }
      if Pending(writers, t) == 0 {
        BeginWrite(t);
      } else if * {
        BeginWrite(t);
      } else if * {
        var disk: Disk := *;
        ChangeFiles(t, disk);
      } else {
        TouchReload(t);
      }
    }

    // ---------------------------------------------------------- the loader

    // The marker, if it is there, empties the tenant's cache.
    method ObeyMarker(tenant: string, quiet: bool)
      requires Coherent() && (quiet ==> Pending(writers, tenant) == 0)
      modifies this
      ensures Coherent() && (quiet ==> Pending(writers, tenant) == 0)
      ensures quiet ==> !Dirty(tenant) && DiskOf(disks, tenant) == DiskOf(old(disks), tenant)
    {
      Writers(tenant, quiet);
      if tenant in marker {
        Writers(tenant, quiet);
        cache := map k | k in cache && k.tenant != Some(tenant) :: cache[k];
        Writers(tenant, quiet);
        marker := marker - {tenant};
      }
    }

    // Finds and reads the bundle, one file at a time.
    method ReadSkill(tenant: string, role: string, quiet: bool) returns (skill: Option<Skill>)
      requires Coherent() && (quiet ==> !Dirty(tenant))
      modifies this`disks, this`marker, this`writers
      ensures Coherent() && (quiet ==> Pending(writers, tenant) == 0)
      ensures Dirty(tenant) || skill == Uncached(DiskOf(disks, tenant), shipped, role)
      ensures quiet ==> !Dirty(tenant) && DiskOf(disks, tenant) == DiskOf(old(disks), tenant)
    {
      Writers(tenant, quiet);
      var listed := DiskOf(disks, tenant);
      var best := TenantBundleDir(listed, role);
      if best.None? {
        skill := if role in shipped then Some(shipped[role]) else None;
        return;
      }
      var name := listed[best.value].name;
      Writers(tenant, quiet);
      var prompt := PromptOf(DiskOf(disks, tenant), name);
      Writers(tenant, quiet);
      var manifest := ManifestOf(DiskOf(disks, tenant), name);
      skill := ReadBundle(prompt, manifest);
    }

    method LoadSkill(role: string, tenant: Option<string>, quiet: bool) returns (skill: Option<Skill>)
      requires Coherent() && (quiet && tenant.Some? ==> Pending(writers, tenant.value) == 0)
      modifies this
      ensures Coherent()
      ensures tenant.None? ==> skill == if role in shipped then Some(shipped[role]) else None
      ensures tenant.Some? ==> Dirty(tenant.value) || IsFresh(if tenant.value in disks then disks[tenant.value] else [], shipped, role, skill)
      ensures quiet && tenant.Some? ==>
        !Dirty(tenant.value) && DiskOf(disks, tenant.value) == DiskOf(old(disks), tenant.value)
    {
      var key := Key(tenant, role);
      if tenant.Some? {
        ObeyMarker(tenant.value, quiet);
      }
      if tenant.Some? {
        UncachedIsFresh(DiskOf(disks, tenant.value), shipped, role);
      }
      if key in cache {
        return Some(cache[key]);
      }
      if tenant.Some? {
        skill := ReadSkill(tenant.value, role, quiet);
      } else {
        skill := if role in shipped then Some(shipped[role]) else None;
      }
      if tenant.Some? {
        UncachedIsFresh(DiskOf(disks, tenant.value), shipped, role);
      }
      if skill.Some? {
        cache := cache[key := skill.value];
      }
    }
  }
}
