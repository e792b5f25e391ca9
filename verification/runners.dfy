/** The controller's own records, updated in place. */
module Runners {
  import opened Types

  class TeardownState {
    var policy: Policy
    var phase: Phase
    var removalAfter: Option<Time>
    ghost const owner: object

    constructor (policy: Policy, phase: Phase, removalAfter: Option<Time>, ghost owner: object)
      ensures Val() == Teardown(policy, phase, removalAfter) && this.owner == owner
    {
      this.policy, this.phase, this.removalAfter, this.owner := policy, phase, removalAfter, owner;
    }

    ghost function Val(): Teardown
      reads this
    {
      Teardown(policy, phase, removalAfter)
    }

    method BeginRemovingRegistration()
      modifies this
      ensures Val() == old(Val()).(phase := RemovingRegistration, removalAfter := None)
    {
      phase := RemovingRegistration;
      removalAfter := None;
    }

    method BeginDeprovisioning()
      modifies this
      ensures Val() == old(Val()).(phase := Deprovisioning, removalAfter := None)
    {
      phase := Deprovisioning;
      removalAfter := None;
    }
  }

  class Runner {
    const name: Name
    var instance: Option<Instance>
    var disk: Option<Disk>
    var busy: bool
    var teardown: TeardownState?

    constructor (name: Name)
      ensures this.name == name && Val() == EMPTY_VIEW && teardown == null
    {
      this.name := name;
      instance, disk, busy, teardown := None, None, false, null;
    }

    ghost function Val(): View
      reads this, teardown
    {
      View(instance, disk, busy, if teardown == null then None else Some(teardown.Val()))
    }

    predicate IsActive()
      reads this, teardown
      ensures IsActive() == Active(Val())
    {
      instance.Some? && !InstanceHalted(instance.value.runState) && teardown == null
    }

    predicate IsGone()
      reads this, teardown
      ensures IsGone() == Gone(Val())
    {
      instance.None? && disk.None? && teardown == null
    }
  }

  // ----- Counting -----

  ghost function ActiveSet(vs: map<Name, View>): set<Name> {
    set n | n in vs && Active(vs[n])
  }

  ghost function BackedSet(vs: map<Name, View>): set<Name> {
    set n | n in vs && vs[n].instance.Some?
  }

  ghost function TearingSet(vs: map<Name, View>): set<Name> {
    set n | n in vs && vs[n].teardown.Some?
  }

  ghost function Pruned(vs: map<Name, View>): map<Name, View> {
    map n | n in vs && !Gone(vs[n]) :: vs[n]
  }

  lemma OneLess<T>(all: set<T>, remaining: set<T>, n: T)
    requires n in remaining
    ensures |all - (remaining - {n})| == |all - remaining| + if n in all then 1 else 0
  {
    if n in all {
      assert all - (remaining - {n}) == (all - remaining) + {n};
    } else {
      assert all - (remaining - {n}) == all - remaining;
    }
  }

  class ReconcileState {
    var desiredRunnerCount: int
    var runners: map<Name, Runner>
    var lastGitHubAudit: Option<Time>
    ghost var repr: set<object>

    constructor ()
      ensures Valid() && fresh(repr) && Views() == map[]
      ensures desiredRunnerCount == -1 && lastGitHubAudit.None?
    {
      desiredRunnerCount, runners, lastGitHubAudit := -1, map[], None;
      repr := {this};
    }

    /** Each runner is filed under its own name and owns its teardown record. */
    ghost predicate Valid()
      reads this, repr
    {
      && this in repr
      && forall n :: n in runners ==> Filed(n)
    }

    ghost predicate Filed(n: Name)
      requires n in runners
      reads this, repr
    {
      && runners[n] in repr && runners[n] as object != this && runners[n].name == n
      && (runners[n].teardown != null ==> runners[n].teardown in repr && runners[n].teardown.owner == runners[n])
    }

    ghost function Views(): map<Name, View>
      requires Valid()
      reads this, repr
    {
      map n | n in runners :: assert Filed(n); runners[n].Val()
    }

    /** The tracked runner of that name, created when unknown. */
    method GetRunner(name: Name) returns (r: Runner)
      requires Valid()
      modifies this
      ensures Valid() && fresh(repr - old(repr)) && old(repr) <= repr
      ensures name in runners && runners[name] == r
      ensures Views() == old(Views())[name := OrEmpty(Lookup(old(Views()), name))]
      ensures desiredRunnerCount == old(desiredRunnerCount) && lastGitHubAudit == old(lastGitHubAudit)
      ensures if name in old(runners) then runners == old(runners) else fresh(r)
    {
      if name in runners {
        r := runners[name];
        assert Filed(name);
      } else {
        r := new Runner(name);
        var before := runners;
        assert forall n :: n in before ==> Filed(n);
        runners := runners[name := r];
        repr := repr + {r};
      }
    }

    method ActiveRunnerCount() returns (active: nat)
      requires Valid()
      ensures active == |ActiveSet(Views())|
    {
      active := 0;
      ghost var all := ActiveSet(Views());
      var remaining := runners.Keys;
      while remaining != {}
        invariant remaining <= runners.Keys
        invariant active == |all - remaining|
      {
        var n :| n in remaining;
        assert Filed(n) && Views()[n] == runners[n].Val();
        OneLess(all, remaining, n);
        if runners[n].IsActive() {
          active := active + 1;
        }
        remaining := remaining - {n};
      }
      assert all - {} == all;
    }

    method InstanceCount() returns (count: nat)
      requires Valid()
      ensures count == |BackedSet(Views())|
    {
      count := 0;
      ghost var all := BackedSet(Views());
      var remaining := runners.Keys;
      while remaining != {}
        invariant remaining <= runners.Keys
        invariant count == |all - remaining|
      {
        var n :| n in remaining;
        assert Filed(n) && Views()[n] == runners[n].Val();
        OneLess(all, remaining, n);
        if runners[n].instance.Some? {
          count := count + 1;
        }
        remaining := remaining - {n};
      }
      assert all - {} == all;
    }

    method TeardownCount() returns (count: nat)
      requires Valid()
      ensures count == |TearingSet(Views())|
    {
      count := 0;
      ghost var all := TearingSet(Views());
      var remaining := runners.Keys;
      while remaining != {}
        invariant remaining <= runners.Keys
        invariant count == |all - remaining|
      {
        var n :| n in remaining;
        assert Filed(n) && Views()[n] == runners[n].Val();
        OneLess(all, remaining, n);
        if runners[n].teardown != null {
          count := count + 1;
        }
        remaining := remaining - {n};
      }
      assert all - {} == all;
    }

    method Prune()
      requires Valid()
      modifies this`runners
      ensures Valid() && Views() == Pruned(old(Views()))
    {
      var remaining := runners.Keys;
      ghost var before := runners;
      while remaining != {}
        invariant remaining <= runners.Keys <= before.Keys
        invariant forall n :: n in runners ==> runners[n] == before[n]
        invariant Valid()
        invariant forall n :: n in before && n !in remaining ==> (n in runners <==> !Gone(old(Views())[n]))
      {
        var n :| n in remaining;
        assert Filed(n) && old(Views())[n] == runners[n].Val();
        if runners[n].IsGone() {
          runners := runners - {n};
        }
        remaining := remaining - {n};
      }
    }
  }
}
