/** Rebuilding the records from what Oxide lists. */
module Observing {
  import opened Types
  import opened Protocol
  import opened System
  import opened Clouds
  import opened Runners
  import opened Teardowns
  import opened Marking

  function OwnedOnly<T>(cfg: Config, all: map<Name, T>): map<Name, T> {
    map n | n in all && Owned(cfg, n) :: all[n]
  }

  /** What the two listings showed, and the history at the moment each was taken. */
  datatype Sight = Sight(found: map<Name, Instance>, disks: map<Name, Disk>, first: seq<Action>, second: seq<Action>)

  /** `found` are the instances in the world after `acts` whose name carries the prefix. */
  ghost predicate InstancesAt(cfg: Config, origin: Sys, acts: seq<Action>, found: map<Name, Instance>) {
    && Legal(cfg, origin, acts) && acts != [] && acts[|acts| - 1] == Cycle(ListInstances)
    && forall n :: Lookup(found, n) == if Owned(cfg, n) then At(Exec(cfg, origin, acts), n).cell.inst else None
  }

  ghost predicate DisksAt(cfg: Config, origin: Sys, acts: seq<Action>, disks: map<Name, Disk>) {
    && Legal(cfg, origin, acts) && acts != [] && acts[|acts| - 1] == Cycle(ListDisks)
    && forall n :: Lookup(disks, n) == if Owned(cfg, n) then At(Exec(cfg, origin, acts), n).cell.disk else None
  }

  /** Both listings were taken between two moments of the run, one after the other, with
      nothing done but listening. */
  ghost predicate Sighted(cfg: Config, origin: Sys, before: seq<Action>, after: seq<Action>, g: Sight) {
    && InstancesAt(cfg, origin, g.first, g.found) && DisksAt(cfg, origin, g.second, g.disks)
    && GrewPassively(before, g.first) && GrewPassively(g.first, g.second) && Grew(g.second, after)
  }

  /** Keeps the resources whose name carries the prefix. */
  method FilterOwned<T>(cfg: Config, all: map<Name, T>) returns (owned: map<Name, T>)
    ensures owned == OwnedOnly(cfg, all)
    ensures forall n :: n in owned <==> n in all && cfg.prefix <= n
  {
    owned := map[];
    var remaining := all.Keys;
    while remaining != {}
      invariant remaining <= all.Keys
      invariant owned == OwnedOnly(cfg, all - remaining)
    {
      var n :| n in remaining;
      if Owned(cfg, n) {
        owned := owned[n := all[n]];
      }
      remaining := remaining - {n};
    }
    assert all - {} == all;
  }

  method ListOwnedInstances(cloud: Cloud, st: ReconcileState) returns (r: Reply<map<Name, Instance>>)
    requires Wired(cloud, st) && cloud.sys.g.stage == Idle
    modifies cloud
    ensures Wired(cloud, st) && GrewPassively(old(cloud.acts), cloud.acts) && old(cloud.now) <= cloud.now
    ensures r.Error? ==> cloud.sys.g.stage == Idle
    ensures r.Answer? ==> cloud.sys.g.stage == InstancesListed
    ensures r.Answer? ==> forall n :: At(cloud.sys, n).note.listedInstance == Lookup(r.value, n)
    ensures r.Answer? ==> InstancesAt(cloud.cfg, cloud.origin, cloud.acts, r.value)
    ensures old(cloud.trouble) <= cloud.trouble && (r.Error? ==> old(cloud.trouble) < cloud.trouble)
  {
    hide Run, Init;
    var reply := cloud.InstanceList();
    if reply.Error? {
      return Error;
    }
    var owned := FilterOwned(cloud.cfg, reply.value);
    r := Answer(owned);
  }

  method ListOwnedDisks(cloud: Cloud, st: ReconcileState) returns (r: Reply<map<Name, Disk>>)
    requires Wired(cloud, st) && cloud.sys.g.stage == InstancesListed
    modifies cloud
    ensures Wired(cloud, st) && GrewPassively(old(cloud.acts), cloud.acts) && old(cloud.now) <= cloud.now
    ensures r.Error? ==> cloud.sys.g.stage == Idle
    ensures r.Answer? ==> cloud.sys.g.stage == Listed
    ensures r.Answer? ==> forall n :: At(cloud.sys, n).note.listedInstance == At(old(cloud.sys), n).note.listedInstance
    ensures r.Answer? ==> forall n :: At(cloud.sys, n).note.listedDisk == Lookup(r.value, n)
    ensures r.Answer? ==> DisksAt(cloud.cfg, cloud.origin, cloud.acts, r.value)
    ensures old(cloud.trouble) <= cloud.trouble && (r.Error? ==> old(cloud.trouble) < cloud.trouble)
  {
    hide Run, Init;
    var reply := cloud.DiskList();
    if reply.Error? {
      return Error;
    }
    var owned := FilterOwned(cloud.cfg, reply.value);
    r := Answer(owned);
  }

  // ----- Joining the listings -----

  function Cleared(v: View): View {
    v.(instance := None, disk := None)
  }

  ghost predicate ClearedSoFar(vs: map<Name, View>, ws: map<Name, View>, remaining: set<Name>) {
    ws.Keys == vs.Keys && forall n :: n in vs ==> ws[n] == if n in remaining then vs[n] else Cleared(vs[n])
  }

  method ClearOne(st: ReconcileState, r: Runner)
    requires st.Valid() && Tracks(st, r)
    modifies r`instance, r`disk
    ensures st.Valid() && st.Views() == old(st.Views())[r.name := Cleared(old(r.Val()))]
  {
    assert st.Filed(r.name);
    r.instance := None;
    r.disk := None;
    OthersSame(st, r);
  }

  method ClearObserved(st: ReconcileState)
    requires st.Valid()
    modifies st.repr
    ensures st.Valid() && st.repr == old(st.repr) && st.runners == old(st.runners)
    ensures st.desiredRunnerCount == old(st.desiredRunnerCount) && st.lastGitHubAudit == old(st.lastGitHubAudit)
    ensures ClearedSoFar(old(st.Views()), st.Views(), {})
  {
    var remaining := st.runners.Keys;
    while remaining != {}
      invariant st.Valid() && st.repr == old(st.repr) && st.runners == old(st.runners)
      invariant st.desiredRunnerCount == old(st.desiredRunnerCount) && st.lastGitHubAudit == old(st.lastGitHubAudit)
      invariant remaining <= st.runners.Keys
      invariant ClearedSoFar(old(st.Views()), st.Views(), remaining)
    {
      var n :| n in remaining;
      assert st.Filed(n) && st.Views()[n] == st.runners[n].Val();
      ClearOne(st, st.runners[n]);
      remaining := remaining - {n};
    }
  }

  function WithInstances(vs: map<Name, View>, found: map<Name, Instance>): map<Name, View> {
    map n | n in vs.Keys + found.Keys ::
      if n in found then OrEmpty(Lookup(vs, n)).(instance := Some(found[n])) else vs[n]
  }

  function WithDisks(vs: map<Name, View>, disks: map<Name, Disk>): map<Name, View> {
    map n | n in vs.Keys + disks.Keys ::
      if n in disks then OrEmpty(Lookup(vs, n)).(disk := Some(disks[n])) else vs[n]
  }

  method SetDisk(st: ReconcileState, r: Runner, d: Option<Disk>)
    requires st.Valid() && Tracks(st, r)
    modifies r`disk
    ensures st.Valid() && st.Views() == old(st.Views())[r.name := old(r.Val()).(disk := d)]
  {
    assert st.Filed(r.name);
    r.disk := d;
    OthersSame(st, r);
  }

  lemma FileInstancesNone(vs: map<Name, View>)
    ensures WithInstances(vs, map[]) == vs
  {
  }

  lemma FileInstanceStep(vs: map<Name, View>, found: map<Name, Instance>, remaining: set<Name>, n: Name)
    requires n in remaining && n in found
    ensures var mid := WithInstances(vs, found - remaining);
            WithInstances(vs, found - (remaining - {n})) == mid[n := OrEmpty(Lookup(mid,
                    n)).(instance := Some(found[n]))]
  {
  }

  method FileInstance(st: ReconcileState, n: Name, x: Instance)
    requires st.Valid()
    modifies st.repr
    ensures st.Valid() && fresh(st.repr - old(st.repr))
    ensures st.desiredRunnerCount == old(st.desiredRunnerCount) && st.lastGitHubAudit == old(st.lastGitHubAudit)
    ensures st.Views() == old(st.Views())[n := OrEmpty(Lookup(old(st.Views()), n)).(instance := Some(x))]
  {
    var r := Find(st, n);
    SetInstance(st, r, Some(x));
  }

  method FileInstances(st: ReconcileState, found: map<Name, Instance>)
    requires st.Valid()
    modifies st.repr
    ensures st.Valid() && fresh(st.repr - old(st.repr))
    ensures st.desiredRunnerCount == old(st.desiredRunnerCount) && st.lastGitHubAudit == old(st.lastGitHubAudit)
    ensures st.Views() == WithInstances(old(st.Views()), found)
  {
    hide WithInstances;
    ghost var vs := st.Views();
    var remaining := found.Keys;
    assert found - remaining == map[];
    FileInstancesNone(vs);
    while remaining != {}
      invariant st.Valid() && fresh(st.repr - old(st.repr))
      invariant st.desiredRunnerCount == old(st.desiredRunnerCount) && st.lastGitHubAudit == old(st.lastGitHubAudit)
      invariant remaining <= found.Keys && st.Views() == WithInstances(vs, found - remaining)
    {
      var n :| n in remaining;
      FileInstanceStep(vs, found, remaining, n);
      FileInstance(st, n, found[n]);
      remaining := remaining - {n};
    }
    assert found - {} == found;
  }

  lemma FileDisksNone(vs: map<Name, View>)
    ensures WithDisks(vs, map[]) == vs
  {
  }

  lemma FileDiskStep(vs: map<Name, View>, disks: map<Name, Disk>, remaining: set<Name>, n: Name)
    requires n in remaining && n in disks
    ensures var mid := WithDisks(vs, disks - remaining);
            WithDisks(vs, disks - (remaining - {n})) == mid[n := OrEmpty(Lookup(mid, n)).(disk := Some(disks[n]))]
  {
  }

  method FileDisk(st: ReconcileState, n: Name, x: Disk)
    requires st.Valid()
    modifies st.repr
    ensures st.Valid() && fresh(st.repr - old(st.repr))
    ensures st.desiredRunnerCount == old(st.desiredRunnerCount) && st.lastGitHubAudit == old(st.lastGitHubAudit)
    ensures st.Views() == old(st.Views())[n := OrEmpty(Lookup(old(st.Views()), n)).(disk := Some(x))]
  {
    var r := Find(st, n);
    SetDisk(st, r, Some(x));
  }

  method FileDisks(st: ReconcileState, disks: map<Name, Disk>)
    requires st.Valid()
    modifies st.repr
    ensures st.Valid() && fresh(st.repr - old(st.repr))
    ensures st.desiredRunnerCount == old(st.desiredRunnerCount) && st.lastGitHubAudit == old(st.lastGitHubAudit)
    ensures st.Views() == WithDisks(old(st.Views()), disks)
  {
    hide WithDisks;
    ghost var vs := st.Views();
    var remaining := disks.Keys;
    assert disks - remaining == map[];
    FileDisksNone(vs);
    while remaining != {}
      invariant st.Valid() && fresh(st.repr - old(st.repr))
      invariant st.desiredRunnerCount == old(st.desiredRunnerCount) && st.lastGitHubAudit == old(st.lastGitHubAudit)
      invariant remaining <= disks.Keys && st.Views() == WithDisks(vs, disks - remaining)
    {
      var n :| n in remaining;
      FileDiskStep(vs, disks, remaining, n);
      FileDisk(st, n, disks[n]);
      remaining := remaining - {n};
    }
    assert disks - {} == disks;
  }

  /** After an observation the tracked resources are those listed, and whether a runner
      is busy or being torn down is as before. */
  ghost predicate Joined(vs: map<Name, View>, ws: map<Name, View>, found: map<Name, Instance>, disks: map<Name, Disk>) {
    forall n :: Lookup(ws, n) == JoinedView(Lookup(vs, n), Lookup(found, n), Lookup(disks, n))
  }

  lemma JoinsUp(vs: map<Name, View>, cs: map<Name, View>, found: map<Name, Instance>, disks: map<Name, Disk>)
    requires ClearedSoFar(vs, cs, {})
    ensures Joined(vs, WithDisks(WithInstances(cs, found), disks), found, disks)
  {
  }

  method FileListings(st: ReconcileState, found: map<Name, Instance>, disks: map<Name, Disk>)
    requires st.Valid()
    modifies st.repr
    ensures st.Valid() && fresh(st.repr - old(st.repr))
    ensures st.desiredRunnerCount == old(st.desiredRunnerCount) && st.lastGitHubAudit == old(st.lastGitHubAudit)
    ensures Joined(old(st.Views()), st.Views(), found, disks)
  {
    hide ClearedSoFar, WithInstances, WithDisks, Joined;
    ghost var vs := st.Views();
    ClearObserved(st);
    JoinsUp(vs, st.Views(), found, disks);
    FileInstances(st, found);
    FileDisks(st, disks);
  }

  method JoinListings(cloud: Cloud, st: ReconcileState, found: map<Name, Instance>, disks: map<Name, Disk>)
    requires Wired(cloud, st) && cloud.sys.g.stage == Listed
    requires forall n :: At(cloud.sys, n).note.listedInstance == Lookup(found, n)
    requires forall n :: At(cloud.sys, n).note.listedDisk == Lookup(disks, n)
    modifies st.repr, cloud
    ensures Wired(cloud, st) && cloud.sys.g.stage == Plan && Onward(cloud)
    ensures fresh(st.repr - old(st.repr))
    ensures st.desiredRunnerCount == old(st.desiredRunnerCount) && st.lastGitHubAudit == old(st.lastGitHubAudit)
    ensures Joined(old(st.Views()), st.Views(), found, disks)
  {
    hide Run, Init;
    FileListings(st, found, disks);
    cloud.Step(Join);
  }

  /** Lists both kinds of resources and joins them by name; if either listing fails the
      records stay as they were, and nothing was created, stopped or deleted. */
  method ObserveRunners(cloud: Cloud, st: ReconcileState) returns (ok: bool, ghost g: Sight)
    requires Wired(cloud, st) && cloud.sys.g.stage == Idle
    modifies st.repr, cloud
    ensures Wired(cloud, st) && cloud.sys.g.stage == (if ok then Plan else Idle) && old(cloud.now) <= cloud.now
    ensures Grew(old(cloud.acts), cloud.acts)
    ensures fresh(st.repr - old(st.repr))
    ensures st.desiredRunnerCount == old(st.desiredRunnerCount) && st.lastGitHubAudit == old(st.lastGitHubAudit)
    ensures ok ==> Joined(old(st.Views()), st.Views(), g.found, g.disks)
    ensures ok ==> Sighted(cloud.cfg, cloud.origin, old(cloud.acts), cloud.acts, g)
    ensures !ok ==> st.Views() == old(st.Views()) && GrewPassively(old(cloud.acts), cloud.acts)
    ensures old(cloud.trouble) <= cloud.trouble && (!ok ==> old(cloud.trouble) < cloud.trouble)
  {
    hide Run, Init, Wired, Joined, InstancesAt, DisksAt;
    ok, g := false, Sight(map[], map[], [], []);
    Unwire(cloud, st);
    var instances := ListOwnedInstances(cloud, st);
    Unwire(cloud, st);
    if instances.Error? {
      return;
    }
    ghost var first := cloud.acts;
    var listed := ListOwnedDisks(cloud, st);
    PassiveOn(old(cloud.acts), first, cloud.acts);
    Unwire(cloud, st);
    if listed.Error? {
      return;
    }
    ok, g := true, Sight(instances.value, listed.value, first, cloud.acts);
    JoinListings(cloud, st, instances.value, listed.value);
  }
}
