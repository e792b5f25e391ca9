/** The decisions to tear a runner down. */
module Marking {
  import opened Types
  import opened Protocol
  import opened Invariant
  import opened System
  import opened Clouds
  import opened Runners
  import opened Teardowns
  import opened Theorems

  /** Records a runner for teardown; a permanent teardown supersedes a cancelable one. */
  method MarkForTeardown(cloud: Cloud, st: ReconcileState, r: Runner, policy: Policy) returns (t: Time)
    requires cloud.Valid() && st.Valid() && cloud !in st.repr && Tracks(st, r)
    modifies st`repr, r`teardown, r.teardown, cloud
    ensures cloud.Valid() && EnvOnly(old(cloud.sys), cloud.sys) && Onward(cloud) && old(cloud.now) <= t <= cloud.now
    ensures policy == Permanent ==> cloud.sys == old(cloud.sys) && cloud.acts == old(cloud.acts)
    ensures st.Valid() && cloud !in st.repr && fresh(st.repr - old(st.repr)) && old(st.repr) <= st.repr
    ensures r.Val() == Marked(old(r.Val()), policy, t)
    ensures old(r.teardown) == null ==> r.teardown != null && fresh(r.teardown)
    ensures st.Views() == old(st.Views())[r.name := r.Val()]
  {
    hide Run, Init;
    assert st.Filed(r.name);
    t := cloud.now;
    if r.teardown != null {
      if r.teardown.policy == Cancelable && policy == Permanent {
        r.teardown.policy := policy;
        if r.teardown.phase == Window {
          r.teardown.BeginRemovingRegistration();
        }
      }
    } else {
      var td;
      if policy == Cancelable {
        t := cloud.Now();
        td := new TeardownState(policy, Window, Some(t + SCALE_DOWN_CANCELLATION_DELAY), r);
      } else {
        td := new TeardownState(policy, RemovingRegistration, None, r);
      }
      r.teardown := td;
      st.repr := st.repr + {td};
    }
    OthersSame(st, r);
  }

  /** A halted instance, or one stuck provisioning, past its grace period. */
  predicate DueInstance(v: View, t: Time) {
    v.instance.Some? && v.teardown.None? && PastGrace(v.instance.value.created, t) &&
    (InstanceHalted(v.instance.value.runState) || TimedOut(v.instance.value, t))
  }

  /** A boot disk left behind without an instance, past its grace period. */
  predicate DueDisk(v: View, t: Time) {
    v.disk.Some? && v.instance.None? && v.teardown.None? && PastGrace(v.disk.value.created, t)
  }

  function Doomed(v: View): View {
    Marked(v, Permanent, 0)
  }

  /** Marks one runner permanently, in the records and in the run. */
  method Condemn(cloud: Cloud, st: ReconcileState, r: Runner)
    requires Wired(cloud, st) && Tracks(st, r) && cloud.sys.g.stage == Plan && r.teardown == null
    modifies st`repr, r`teardown, cloud
    ensures Wired(cloud, st) && cloud.sys.g == old(cloud.sys).g && Onward(cloud) && cloud.now == old(cloud.now)
    ensures fresh(st.repr - old(st.repr)) && old(st.repr) <= st.repr
    ensures r.Val() == Doomed(old(r.Val()))
    ensures st.Views() == old(st.Views())[r.name := r.Val()]
  {
    hide Run, Init;
    Seen(cloud, st, r);
    var t := MarkForTeardown(cloud, st, r, Permanent);
    cloud.Resolve(r.name, MarkPermanent(cloud.now));
    Recoupled(cloud, st, r.name, r.Val());
  }

  /** No runner came or went, and the cycle's own variables stand. */
  twostate predicate Steady(st: ReconcileState)
    reads st
  {
    fresh(st.repr - old(st.repr)) && st.runners == old(st.runners) &&
    st.desiredRunnerCount == old(st.desiredRunnerCount) && st.lastGitHubAudit == old(st.lastGitHubAudit)
  }

  /** What marking has made of the runners already visited. */
  ghost predicate MarkedSoFar(before: map<Name, View>, after: map<Name, View>, due: (View, Time) -> bool,
                              t0: Time, t1: Time, remaining: set<Name>)
  {
    && after.Keys == before.Keys
    && forall n :: n in before ==>
      && (n !in remaining && due(before[n], t0) ==> after[n] == Doomed(before[n]))
      && (after[n] == before[n] || (n !in remaining && due(before[n], t1) && after[n] == Doomed(before[n])))
  }

  predicate DueStays(due: (View, Time) -> bool, v: View, t0: Time, t1: Time) {
    t0 <= t1 && due(v, t0) ==> due(v, t1)
  }

  lemma MarkedStart(before: map<Name, View>, due: (View, Time) -> bool, t: Time)
    ensures MarkedSoFar(before, before, due, t, t, before.Keys)
  {
  }

  /** Visiting one more runner, at any later time. */
  lemma MarkedStep(before: map<Name, View>, mid: map<Name, View>, after: map<Name, View>, due: (View, Time) -> bool,
                   t0: Time, t1: Time, t2: Time, remaining: set<Name>, n: Name)
    requires MarkedSoFar(before, mid, due, t0, t1, remaining) && n in remaining && n in mid && t0 <= t1 <= t2
    requires forall v: View, x, y :: DueStays(due, v, x, y)
    requires n in after && after == mid[n := after[n]]
    requires due(mid[n], t1) ==> after[n] == Doomed(mid[n])
    requires after[n] == mid[n] || (due(mid[n], t2) && after[n] == Doomed(mid[n]))
    ensures MarkedSoFar(before, after, due, t0, t2, remaining - {n})
  {
    hide Marked;
    forall m | m in before
      ensures m !in remaining - {n} && due(before[m], t0) ==> after[m] == Doomed(before[m])
      ensures after[m] == before[m] || (m !in remaining - {n} && due(before[m], t2) && after[m] == Doomed(before[m]))
    {
      assert DueStays(due, before[m], t0, t1) && DueStays(due, before[m], t1, t2);
    }
  }

  method MarkInstance(cloud: Cloud, st: ReconcileState, r: Runner)
    requires Wired(cloud, st) && Tracks(st, r) && cloud.sys.g.stage == Plan
    modifies st`repr, r`teardown, cloud
    ensures Wired(cloud, st) && cloud.sys.g.stage == Plan && Onward(cloud) && Steady(st)
    ensures st.Views() == old(st.Views())[r.name := r.Val()]
    ensures DueInstance(old(r.Val()), old(cloud.now)) ==> r.Val() == Doomed(old(r.Val()))
    ensures r.Val() == old(r.Val()) || (DueInstance(old(r.Val()), cloud.now) && r.Val() == Doomed(old(r.Val())))
  {
    hide Run, Init;
    Seen(cloud, st, r);
    if r.instance.Some? && r.teardown == null {
      var due := InstanceOverdue(cloud, st, r.instance.value);
      if due {
        Condemn(cloud, st, r);
      }
    }
  }

  method MarkInstancesForTeardown(cloud: Cloud, st: ReconcileState)
    requires Wired(cloud, st) && cloud.sys.g.stage == Plan
    modifies st.repr, cloud
    ensures Wired(cloud, st) && cloud.sys.g.stage == Plan && Onward(cloud) && Steady(st)
    ensures MarkedSoFar(old(st.Views()), st.Views(), DueInstance, old(cloud.now), cloud.now, {})
  {
    hide Run, Init, Wired, Grew, MarkedSoFar, Marked;
    Unwire(cloud, st);
    GrewNone(cloud.acts);
    var remaining := st.runners.Keys;
    assert st.Views().Keys == remaining;
    MarkedStart(st.Views(), DueInstance, cloud.now);
    while remaining != {}
      invariant Wired(cloud, st) && cloud.sys.g.stage == Plan && Onward(cloud) && Steady(st)
      invariant st.Valid() && remaining <= st.runners.Keys
      invariant MarkedSoFar(old(st.Views()), st.Views(), DueInstance, old(cloud.now), cloud.now, remaining)
    {
      var n :| n in remaining;
      assert st.Filed(n);
      ghost var mid, t1, acts := st.Views(), cloud.now, cloud.acts;
      MarkInstance(cloud, st, st.runners[n]);
      GrewOn(old(cloud.acts), acts, cloud.acts);
      Unwire(cloud, st);
      MarkedStep(old(st.Views()), mid, st.Views(), DueInstance, old(cloud.now), t1, cloud.now, remaining, n);
      remaining := remaining - {n};
    }
  }

  method InstanceOverdue(cloud: Cloud, st: ReconcileState, i: Instance) returns (due: bool)
    requires Wired(cloud, st)
    modifies cloud
    ensures Wired(cloud, st) && cloud.sys.g.stage == old(cloud.sys).g.stage && Onward(cloud)
    ensures due ==> PastGrace(i.created, cloud.now) && (InstanceHalted(i.runState) || TimedOut(i, cloud.now))
    ensures PastGrace(i.created, old(cloud.now)) && (InstanceHalted(i.runState) || TimedOut(i, old(cloud.now))) ==> due
  {
    hide Run, Init;
    var now := cloud.Now();
    if !PastGrace(i.created, now) {
      return false;
    }
    if InstanceHalted(i.runState) {
      return true;
    }
    now := cloud.Now();
    due := TimedOut(i, now);
  }

  method MarkDisk(cloud: Cloud, st: ReconcileState, r: Runner)
    requires Wired(cloud, st) && Tracks(st, r) && cloud.sys.g.stage == Plan
    modifies st`repr, r`teardown, cloud
    ensures Wired(cloud, st) && cloud.sys.g.stage == Plan && Onward(cloud) && Steady(st)
    ensures st.Views() == old(st.Views())[r.name := r.Val()]
    ensures DueDisk(old(r.Val()), old(cloud.now)) ==> r.Val() == Doomed(old(r.Val()))
    ensures r.Val() == old(r.Val()) || (DueDisk(old(r.Val()), cloud.now) && r.Val() == Doomed(old(r.Val())))
  {
    hide Run, Init;
    Seen(cloud, st, r);
    if r.disk.Some? && r.instance.None? && r.teardown == null {
      var now := cloud.Now();
      if PastGrace(r.disk.value.created, now) {
        Condemn(cloud, st, r);
      }
    }
  }

  method MarkDisksForTeardown(cloud: Cloud, st: ReconcileState)
    requires Wired(cloud, st) && cloud.sys.g.stage == Plan
    modifies st.repr, cloud
    ensures Wired(cloud, st) && cloud.sys.g.stage == Plan && Onward(cloud) && Steady(st)
    ensures MarkedSoFar(old(st.Views()), st.Views(), DueDisk, old(cloud.now), cloud.now, {})
  {
    hide Run, Init, Wired, Grew, MarkedSoFar, Marked;
    Unwire(cloud, st);
    GrewNone(cloud.acts);
    var remaining := st.runners.Keys;
    assert st.Views().Keys == remaining;
    MarkedStart(st.Views(), DueDisk, cloud.now);
    while remaining != {}
      invariant Wired(cloud, st) && cloud.sys.g.stage == Plan && Onward(cloud) && Steady(st)
      invariant st.Valid() && remaining <= st.runners.Keys
      invariant MarkedSoFar(old(st.Views()), st.Views(), DueDisk, old(cloud.now), cloud.now, remaining)
    {
      var n :| n in remaining;
      assert st.Filed(n);
      ghost var mid, t1, acts := st.Views(), cloud.now, cloud.acts;
      MarkDisk(cloud, st, st.runners[n]);
      GrewOn(old(cloud.acts), acts, cloud.acts);
      Unwire(cloud, st);
      MarkedStep(old(st.Views()), mid, st.Views(), DueDisk, old(cloud.now), t1, cloud.now, remaining, n);
      remaining := remaining - {n};
    }
  }

  /** A runner whose registration is found gone skips the removal. */
  function Audited(v: View): View {
    var d := Doomed(v);
    if d.teardown.None? then d else d.(teardown := Some(d.teardown.value.(phase := Deprovisioning,
            removalAfter := None)))
  }

  /** The audit marks only idle-looking runners past their grace period. */
  predicate AuditStep(v: View, w: View, now: Time) {
    w == v || (Active(v) && PastGrace(v.instance.value.created, now) && w == Audited(v))
  }

  ghost predicate AuditedViews(before: map<Name, View>, after: map<Name, View>, now: Time) {
    after.Keys == before.Keys && forall n :: n in before ==> AuditStep(before[n], after[n], now)
  }

  /** What the audit must find: a runner up and past its grace period whose registration
      is gone for good. */
  predicate Deserted(cfg: Config, n: Name, l: Local, now: Time) {
    && l.view.Some? && Active(l.view.value) && PastGrace(l.view.value.instance.value.created, now)
    && Retired(Owned(cfg, n), l)
  }

  lemma StillDeserted(cloud: Cloud, a: seq<Action>, s: Sys, n: Name)
    requires cloud.Valid() && Run(cloud.cfg, cloud.origin, a) == Some(s) && Grew(a, cloud.acts)
    requires Retired(Owned(cloud.cfg, n), At(s, n))
    ensures At(cloud.sys, n).cell.reg.None? && Retired(Owned(cloud.cfg, n), At(cloud.sys, n))
  {
    hide Run, Init;
    StillRetired(cloud.cfg, cloud.origin, a, cloud.acts, n);
  }

  method Audit(cloud: Cloud, st: ReconcileState, r: Runner) returns (retry: bool)
    requires Wired(cloud, st) && Tracks(st, r) && cloud.sys.g.stage == Plan
    modifies st`repr, r`teardown, cloud
    ensures Wired(cloud, st) && cloud.sys.g.stage == Plan && Onward(cloud) && Steady(st)
    ensures st.Views() == old(st.Views())[r.name := r.Val()]
    ensures AuditStep(old(r.Val()), r.Val(), cloud.now)
    ensures retry ==> r.Val() == old(r.Val()) && old(cloud.trouble) < cloud.trouble
    ensures !retry && Deserted(cloud.cfg, r.name, At(old(cloud.sys), r.name), old(cloud.now)) ==>
              r.Val() == Audited(old(r.Val()))
    ensures r.Val() != old(r.Val()) ==> At(cloud.sys, r.name).cell.reg.None?
  {
    hide Run, Init, Retired;
    Seen(cloud, st, r);
    retry := false;
    if r.instance.None? || r.teardown != null {
      return;
    }
    var now := cloud.Now();
    if !PastGrace(r.instance.value.created, now) || InstanceHalted(r.instance.value.runState) {
      return;
    }
    retry := AuditQuery(cloud, st, r, old(cloud.acts), old(cloud.sys));
  }

  /** Asks GitHub for the registration; `s` is an earlier state of the run. */
  method AuditQuery(cloud: Cloud, st: ReconcileState, r: Runner, ghost a: seq<Action>,
          ghost s: Sys) returns (retry: bool)
    requires Wired(cloud, st) && Tracks(st, r) && cloud.sys.g.stage == Plan && Active(r.Val())
    requires Run(cloud.cfg, cloud.origin, a) == Some(s) && Grew(a, cloud.acts)
    modifies st`repr, r`teardown, cloud
    ensures Wired(cloud, st) && cloud.sys.g.stage == Plan && Onward(cloud) && Steady(st)
    ensures st.Views() == old(st.Views())[r.name := r.Val()]
    ensures r.Val() == old(r.Val()) || r.Val() == Audited(old(r.Val()))
    ensures retry ==> r.Val() == old(r.Val()) && old(cloud.trouble) < cloud.trouble
    ensures !retry && Retired(Owned(cloud.cfg, r.name), At(s, r.name)) ==> r.Val() == Audited(old(r.Val()))
    ensures r.Val() != old(r.Val()) ==> At(cloud.sys, r.name).cell.reg.None?
  {
    hide Run, Init, Retired, Audited;
    Seen(cloud, st, r);
    retry := false;
    var reply := cloud.GetRunnerByName(r.name);
    if Retired(Owned(cloud.cfg, r.name), At(s, r.name)) {
      StillDeserted(cloud, a, s, r.name);
    }
    if reply.Error? {
      retry := true;
    } else if reply.value.None? {
      GoneFromGitHub(cloud, st, r);
    }
  }

  method MarkDeregistered(cloud: Cloud, st: ReconcileState, r: Runner)
    requires cloud.Valid() && st.Valid() && cloud !in st.repr && Tracks(st, r) && r.teardown == null
    modifies st`repr, r`teardown, cloud
    ensures cloud.Valid() && cloud.sys == old(cloud.sys) && cloud.acts == old(cloud.acts) && Onward(cloud)
    ensures st.Valid() && cloud !in st.repr && Steady(st)
    ensures st.Views() == old(st.Views())[r.name := r.Val()] && r.Val() == Audited(old(r.Val()))
  {
    hide Run, Init;
    var t := MarkForTeardown(cloud, st, r, Permanent);
    assert st.Filed(r.name);
    r.teardown.BeginDeprovisioning();
    OthersSame(st, r);
  }

  lemma AuditEffect(now: Time, l: Local)
    requires l.view.Some? && Active(l.view.value) && l.cell.reg.None?
    ensures DecideMay(now, AuditGone(now), l)
    ensures DecideEffect(now, AuditGone(now), l).view == Some(Audited(l.view.value))
    ensures DecideEffect(now, AuditGone(now), l).cell == l.cell
  {
  }

  method GoneFromGitHub(cloud: Cloud, st: ReconcileState, r: Runner)
    requires Wired(cloud, st) && Tracks(st, r) && cloud.sys.g.stage == Plan && Active(r.Val())
    requires At(cloud.sys, r.name).cell.reg.None?
    modifies st`repr, r`teardown, cloud
    ensures Wired(cloud, st) && cloud.sys.g == old(cloud.sys).g && Onward(cloud) && Steady(st)
    ensures st.Views() == old(st.Views())[r.name := r.Val()]
    ensures r.Val() == Audited(old(r.Val()))
    ensures At(cloud.sys, r.name).cell.reg.None?
  {
    hide Run, Init, Audited, DecideEffect, DecideMay;
    Seen(cloud, st, r);
    AuditEffect(cloud.now, At(cloud.sys, r.name));
    MarkDeregistered(cloud, st, r);
    cloud.Resolve(r.name, AuditGone(cloud.now));
    Recoupled(cloud, st, r.name, r.Val());
  }

  /** The deserted runners the audit has visited and not found. */
  ghost function Missed(cfg: Config, s: Sys, vs: map<Name, View>, ws: map<Name, View>, remaining: set<Name>,
                        t: Time): set<Name> {
    set n | n in vs && n in ws && n !in remaining && Deserted(cfg, n, At(s, n), t) && ws[n] != Audited(vs[n])
  }

  lemma MissedOne(cfg: Config, s: Sys, vs: map<Name, View>, mid: map<Name, View>, ws: map<Name, View>,
                  remaining: set<Name>, n: Name, t: Time, failed: bool)
    requires n in remaining && n in vs && n in mid && ws.Keys == mid.Keys && ws == mid[n := ws[n]]
    requires !failed && Deserted(cfg, n, At(s, n), t) ==> ws[n] == Audited(vs[n])
    ensures |Missed(cfg, s, vs, ws, remaining - {n}, t)| <=
            |Missed(cfg, s, vs, mid, remaining, t)| + if failed then 1 else 0
  {
    hide Audited, Deserted;
    var a, b := Missed(cfg, s, vs, mid, remaining, t), Missed(cfg, s, vs, ws, remaining - {n}, t);
    assert b <= a + {n} && (!failed ==> n !in b);
    SubsetSize(b, if failed then a + {n} else a);
    assert n !in a;
  }

  lemma MissedNone(cfg: Config, s: Sys, vs: map<Name, View>, t: Time)
    ensures Missed(cfg, s, vs, vs, vs.Keys, t) == {}
  {
  }

  /** A runner not yet visited is as deserted now as it was at the start. */
  lemma DesertedNow(cloud: Cloud, a: seq<Action>, s: Sys, t: Time, n: Name)
    requires cloud.Valid() && Run(cloud.cfg, cloud.origin, a) == Some(s) && Grew(a, cloud.acts) && t <= cloud.now
    requires At(cloud.sys, n).view == At(s, n).view && Deserted(cloud.cfg, n, At(s, n), t)
    ensures Deserted(cloud.cfg, n, At(cloud.sys, n), cloud.now)
  {
    hide Run, Init;
    StillDeserted(cloud, a, s, n);
  }

  lemma AuditedLater(vs: map<Name, View>, ws: map<Name, View>, t: Time, now: Time)
    requires t <= now && (ws == vs || AuditedViews(vs, ws, t))
    ensures AuditedViews(vs, ws, now)
  {
  }

  lemma AuditedNext(vs: map<Name, View>, mid: map<Name, View>, ws: map<Name, View>, n: Name, t: Time, now: Time)
    requires AuditedViews(vs, mid, t) && t <= now && n in vs && n in mid && n in ws
    requires mid[n] == vs[n] && ws == mid[n := ws[n]] && AuditStep(mid[n], ws[n], now)
    ensures AuditedViews(vs, ws, now)
  {
    hide Audited;
  }

  method AuditNext(cloud: Cloud, st: ReconcileState, n: Name, ghost a: seq<Action>, ghost s: Sys, ghost t: Time)
    returns (retry: bool)
    requires Wired(cloud, st) && cloud.sys.g.stage == Plan && n in st.runners && st.Valid()
    requires Run(cloud.cfg, cloud.origin, a) == Some(s) && Grew(a, cloud.acts) && t <= cloud.now
    requires At(s, n).view == Lookup(st.Views(), n)
    modifies st.repr, cloud
    ensures Wired(cloud, st) && cloud.sys.g.stage == Plan && Onward(cloud) && Steady(st) && st.Valid()
    ensures st.Views() == old(st.Views())[n := st.Views()[n]]
    ensures AuditStep(old(st.Views())[n], st.Views()[n], cloud.now)
    ensures retry ==> old(cloud.trouble) < cloud.trouble
    ensures !retry && Deserted(cloud.cfg, n, At(s, n), t) ==> st.Views()[n] == Audited(old(st.Views())[n])
  {
    hide Run, Init, Deserted, Audited, AuditStep;
    Unwire(cloud, st);
    assert st.Filed(n) && st.Views()[n] == st.runners[n].Val();
    Seen(cloud, st, st.runners[n]);
    if Deserted(cloud.cfg, n, At(s, n), t) {
      DesertedNow(cloud, a, s, t, n);
    }
    retry := Audit(cloud, st, st.runners[n]);
    assert st.Filed(n) && st.Views()[n] == st.runners[n].Val();
  }

  /** Whoever was marked has no registration. */
  ghost predicate Unregistered(s: Sys, vs: map<Name, View>, ws: map<Name, View>) {
    forall n :: n in vs && n in ws && ws[n] != vs[n] ==> At(s, n).cell.reg.None?
  }

  lemma AuditedGone(cloud: Cloud, st: ReconcileState, vs: map<Name, View>)
    requires Wired(cloud, st)
    requires st.Valid() && AuditedViews(vs, st.Views(), cloud.now)
    ensures Unregistered(cloud.sys, vs, st.Views())
  {
    hide Run, Init;
    cloud.Invariant();
    forall n | n in vs && n in st.Views() && st.Views()[n] != vs[n] ensures At(cloud.sys, n).cell.reg.None? {
      assert AuditStep(vs[n], st.Views()[n], cloud.now);
      SeenOrNot(cloud, st, n);
      assert LocalInv(cloud.cfg, cloud.sys.g, n, At(cloud.sys, n));
    }
  }

  /** Checks, without repeating a failed query, which registrations are gone. A failure is
      no excuse for another runner: as many calls failed as deserted runners were missed. */
  method MarkRegistrationsForTeardown(cloud: Cloud, st: ReconcileState) returns (retry: Option<Time>)
    requires Wired(cloud, st) && cloud.sys.g.stage == Plan
    modifies st.repr, cloud
    ensures Wired(cloud, st) && cloud.sys.g.stage == Plan && Onward(cloud) && Steady(st)
    ensures st.Valid() && AuditedViews(old(st.Views()), st.Views(), cloud.now)
    ensures retry.Some? ==> retry.value == cloud.now + 15 * SECOND && old(cloud.trouble) < cloud.trouble
    ensures var missed := Missed(cloud.cfg, old(cloud.sys), old(st.Views()), st.Views(), {}, old(cloud.now));
            old(cloud.trouble) + |missed| <= cloud.trouble && (retry.None? ==> missed == {})
    ensures Unregistered(cloud.sys, old(st.Views()), st.Views())
  {
    hide Run, Init, Wired, Grew, Audited, Deserted, AuditedViews, AuditStep, Unregistered, Missed;
    Unwire(cloud, st);
    GrewNone(cloud.acts);
    ghost var vs, a, s, t := st.Views(), cloud.acts, cloud.sys, cloud.now;
    StartAudit(cloud, st);
    AuditedLater(vs, vs, t, t);
    var again := false;
    var remaining := st.runners.Keys;
    assert vs.Keys == remaining;
    while remaining != {}
      invariant Wired(cloud, st) && cloud.sys.g.stage == Plan && Onward(cloud) && Steady(st)
      invariant st.Valid() && remaining <= st.runners.Keys
      invariant AuditedViews(vs, st.Views(), cloud.now)
      invariant forall n :: n in remaining && n in st.Views() ==> st.Views()[n] == vs[n]
      invariant again ==> old(cloud.trouble) < cloud.trouble
      invariant !again ==> Missed(cloud.cfg, s, vs, st.Views(), remaining, t) == {}
      invariant old(cloud.trouble) + |Missed(cloud.cfg, s, vs, st.Views(), remaining, t)| <= cloud.trouble
    {
      var n :| n in remaining;
      ghost var mid, acts, t1 := st.Views(), cloud.acts, cloud.now;
      assert n in mid && mid[n] == vs[n];
      var failed := AuditNext(cloud, st, n, a, s, t);
      GrewOn(old(cloud.acts), acts, cloud.acts);
      AuditedNext(vs, mid, st.Views(), n, t1, cloud.now);
      MissedOne(cloud.cfg, s, vs, mid, st.Views(), remaining, n, t, failed);
      again := again || failed;
      remaining := remaining - {n};
    }
    retry := None;
    if again {
      ghost var acts, t1 := cloud.acts, cloud.now;
      retry := Later(cloud, st, RECONCILE_RETRY_DELAY);
      GrewOn(old(cloud.acts), acts, cloud.acts);
      Unwire(cloud, st);
      AuditedLater(vs, st.Views(), t1, cloud.now);
    }
    AuditedGone(cloud, st, vs);
  }

  lemma StartAudit(cloud: Cloud, st: ReconcileState)
    requires Wired(cloud, st)
    ensures st.Valid() && Run(cloud.cfg, cloud.origin, cloud.acts) == Some(cloud.sys)
    ensures forall n :: At(cloud.sys, n).view == Lookup(st.Views(), n)
    ensures Missed(cloud.cfg, cloud.sys, st.Views(), st.Views(), st.runners.Keys, cloud.now) == {}
  {
    hide Run, Init;
    MissedNone(cloud.cfg, cloud.sys, st.Views(), cloud.now);
  }

  // ----- Names that may be new -----

  /** Finds a runner, or starts to track it. */
  method Find(st: ReconcileState, name: Name) returns (r: Runner)
    requires st.Valid()
    modifies st
    ensures st.Valid() && fresh(st.repr - old(st.repr)) && old(st.repr) <= st.repr
    ensures Tracks(st, r) && r.name == name && r in st.repr && (r.teardown != null ==> r.teardown in st.repr)
    ensures r.Val() == OrEmpty(Lookup(old(st.Views()), name))
    ensures st.Views() == old(st.Views())[name := r.Val()]
    ensures st.desiredRunnerCount == old(st.desiredRunnerCount) && st.lastGitHubAudit == old(st.lastGitHubAudit)
  {
    r := st.GetRunner(name);
    assert st.Filed(name);
    assert st.Views()[name] == r.Val();
  }

  lemma DoomedAnytime(v: View, t: Time)
    ensures Marked(v, Permanent, t) == Doomed(v)
  {
  }

  lemma SeenOrNot(cloud: Cloud, st: ReconcileState, n: Name)
    requires Wired(cloud, st)
    ensures At(cloud.sys, n).view == Lookup(st.Views(), n)
  {
    hide Run, Init;
  }

  method SetInstance(st: ReconcileState, r: Runner, i: Option<Instance>)
    requires st.Valid() && Tracks(st, r)
    modifies r`instance
    ensures st.Valid() && st.Views() == old(st.Views())[r.name := old(r.Val()).(instance := i)]
  {
    assert st.Filed(r.name);
    r.instance := i;
    OthersSame(st, r);
  }

  /** Puts the runner of that name, known or not, under a permanent teardown. */
  method CondemnByName(cloud: Cloud, st: ReconcileState, name: Name)
    requires cloud.Valid() && st.Valid() && cloud !in st.repr
    modifies st.repr, cloud
    ensures cloud.Valid() && cloud !in st.repr && cloud.sys == old(cloud.sys) && cloud.acts == old(cloud.acts)
    ensures old(cloud.trouble) <= cloud.trouble
    ensures st.Valid() && fresh(st.repr - old(st.repr))
    ensures st.desiredRunnerCount == old(st.desiredRunnerCount) && st.lastGitHubAudit == old(st.lastGitHubAudit)
    ensures st.Views() == old(st.Views())[name := Doomed(OrEmpty(Lookup(old(st.Views()), name)))]
  {
    hide Run, Init, Marked, OrEmpty, Lookup;
    var r := Find(st, name);
    ghost var v := r.Val();
    var t := MarkForTeardown(cloud, st, r, Permanent);
    DoomedAnytime(v, t);
  }
}
