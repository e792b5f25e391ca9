/** One cycle: gather, plan, act. */
module Reconciling {
  import opened Types
  import opened Protocol
  import opened System
  import opened Clouds
  import opened Runners
  import opened Teardowns
  import opened Marking
  import opened Capacity
  import opened Ordering
  import opened Provisioning
  import opened Scalers
  import opened Observing
  import opened Driving
  import opened Theorems

  // ----- Plan: marking -----

  predicate AuditDue(last: Option<Time>, now: Time) {
    last.None? || now - last.value >= GITHUB_AUDIT_INTERVAL
  }

  /** What planning does to one runner between two times. */
  predicate MarkedAs(v: View, w: View, t0: Time, t1: Time) {
    && (w == v || ((DueInstance(v, t1) || DueDisk(v, t1)) && w == Doomed(v)) || AuditStep(v, w, t1))
    && (DueInstance(v, t0) || DueDisk(v, t0) ==> w == Doomed(v))
  }

  ghost predicate MarkedViews(vs: map<Name, View>, ws: map<Name, View>, t0: Time, t1: Time) {
    ws.Keys == vs.Keys && forall n :: n in vs ==> MarkedAs(vs[n], ws[n], t0, t1)
  }

  lemma MarksAddUp(vs: map<Name, View>, xs: map<Name, View>, ys: map<Name, View>, ws: map<Name, View>,
                   t0: Time, ta: Time, tb: Time, t1: Time)
    requires t0 <= ta <= tb <= t1
    requires MarkedSoFar(vs, xs, DueInstance, t0, ta, {}) && MarkedSoFar(xs, ys, DueDisk, ta, tb, {})
    requires AuditedViews(ys, ws, t1)
    ensures MarkedViews(vs, ws, t0, t1)
  {
  }

  /** Where records and run agree on a state, what is deserted is deserted for both. */
  lemma DesertedCarries(cloud: Cloud, a: seq<Action>, s: Sys, t: Time)
    requires cloud.Valid() && Run(cloud.cfg, cloud.origin, a) == Some(s) && Grew(a, cloud.acts) && t <= cloud.now
    ensures forall n :: At(cloud.sys, n).view == At(s, n).view && Deserted(cloud.cfg, n, At(s, n), t) ==>
                        Deserted(cloud.cfg, n, At(cloud.sys, n), cloud.now)
  {
    hide Run, Init, Deserted;
    forall n | At(cloud.sys, n).view == At(s, n).view && Deserted(cloud.cfg, n, At(s, n), t)
      ensures Deserted(cloud.cfg, n, At(cloud.sys, n), cloud.now)
    {
      DesertedNow(cloud, a, s, t, n);
    }
  }

  lemma MissedSince(cfg: Config, s: Sys, s': Sys, vs: map<Name, View>, ws: map<Name, View>, t: Time, t': Time)
    requires forall n :: Deserted(cfg, n, At(s, n), t) ==> Deserted(cfg, n, At(s', n), t')
    ensures Missed(cfg, s, vs, ws, {}, t) <= Missed(cfg, s', vs, ws, {}, t')
    ensures |Missed(cfg, s, vs, ws, {}, t)| <= |Missed(cfg, s', vs, ws, {}, t')|
  {
    hide Deserted, Audited;
    SubsetSize(Missed(cfg, s, vs, ws, {}, t), Missed(cfg, s', vs, ws, {}, t'));
  }

  lemma Linked(cloud: Cloud, st: ReconcileState)
    requires Wired(cloud, st)
    ensures cloud.Valid() && st.Valid() && Run(cloud.cfg, cloud.origin, cloud.acts) == Some(cloud.sys)
    ensures forall n :: At(cloud.sys, n).view == Lookup(st.Views(), n)
  {
    hide Run, Init;
  }

  /** A retry is due fifteen seconds after a reading of the clock between the two times. */
  predicate RetryFrom(retry: Option<Time>, t0: Time, t1: Time) {
    retry.Some? ==> t0 + 15 * SECOND <= retry.value <= t1 + 15 * SECOND
  }

  method AuditNow(cloud: Cloud, st: ReconcileState) returns (retry: Option<Time>)
    requires Wired(cloud, st) && cloud.sys.g.stage == Plan
    modifies st.repr, cloud
    ensures Wired(cloud, st) && cloud.sys.g.stage == Plan && Onward(cloud)
    ensures fresh(st.repr - old(st.repr)) && st.desiredRunnerCount == old(st.desiredRunnerCount)
    ensures st.Valid() && AuditedViews(old(st.Views()), st.Views(), cloud.now)
    ensures RetryFrom(retry, old(cloud.now), cloud.now)
    ensures retry.Some? ==> old(cloud.trouble) < cloud.trouble && st.lastGitHubAudit == old(st.lastGitHubAudit)
    ensures var missed := Missed(cloud.cfg, old(cloud.sys), old(st.Views()), st.Views(), {}, old(cloud.now));
            old(cloud.trouble) + |missed| <= cloud.trouble && (retry.None? ==> missed == {})
    ensures retry.None? ==>
              && st.lastGitHubAudit.Some? && old(cloud.now) <= st.lastGitHubAudit.value <= cloud.now
  {
    hide Run, Init, Wired, Grew, AuditedViews, Missed;
    Unwire(cloud, st);
    ghost var vs := st.Views();
    retry := MarkRegistrationsForTeardown(cloud, st);
    if retry.None? {
      ghost var acts, t := cloud.acts, cloud.now;
      var now := Clock(cloud, st);
      GrewOn(old(cloud.acts), acts, cloud.acts);
      Unwire(cloud, st);
      AuditedLater(vs, st.Views(), t, now);
      RecordAudit(cloud, st, now);
      Unwire(cloud, st);
    }
  }

  /** Audits the registrations unless that was done recently. */
  method AuditIfDue(cloud: Cloud, st: ReconcileState) returns (retry: Option<Time>)
    requires Wired(cloud, st) && cloud.sys.g.stage == Plan
    modifies st.repr, cloud
    ensures Wired(cloud, st) && cloud.sys.g.stage == Plan && Onward(cloud)
    ensures fresh(st.repr - old(st.repr)) && st.desiredRunnerCount == old(st.desiredRunnerCount)
    ensures st.Valid() && AuditedViews(old(st.Views()), st.Views(), cloud.now)
    ensures RetryFrom(retry, old(cloud.now), cloud.now) && (retry.Some? ==> old(cloud.trouble) < cloud.trouble)
    ensures AuditDue(old(st.lastGitHubAudit), old(cloud.now)) ==>
              var missed := Missed(cloud.cfg, old(cloud.sys), old(st.Views()), st.Views(), {}, old(cloud.now));
              old(cloud.trouble) + |missed| <= cloud.trouble && (retry.None? ==> missed == {})
    ensures AuditNoted(old(st.lastGitHubAudit), st.lastGitHubAudit, retry, old(cloud.now), cloud.now)
  {
    hide Run, Init, Wired, Grew, AuditedViews, Missed, Deserted;
    Linked(cloud, st);
    retry := None;
    ghost var vs, a, s, t := st.Views(), cloud.acts, cloud.sys, cloud.now;
    var now := Clock(cloud, st);
    Linked(cloud, st);
    ghost var acts := cloud.acts;
    DesertedCarries(cloud, a, s, t);
    AuditedLater(vs, vs, now, now);
    assert st.Views() == vs;
    if AuditDue(st.lastGitHubAudit, now) {
      ghost var s', t' := cloud.sys, cloud.now;
      forall n ensures Deserted(cloud.cfg, n, At(s, n), t) ==> Deserted(cloud.cfg, n, At(s', n), t') {
        assert At(s', n).view == At(s, n).view;
      }
      retry := AuditNow(cloud, st);
      GrewOn(old(cloud.acts), acts, cloud.acts);
      Unwire(cloud, st);
      MissedSince(cloud.cfg, s, s', vs, st.Views(), t, t');
    }
  }

  method RecordAudit(cloud: Cloud, st: ReconcileState, now: Time)
    requires Wired(cloud, st)
    modifies st`lastGitHubAudit
    ensures Wired(cloud, st) && st.lastGitHubAudit == Some(now) && st.Views() == old(st.Views())
  {
    hide Run, Init;
    st.lastGitHubAudit := Some(now);
    assert forall n :: n in st.runners ==> old(st.Filed(n)) && st.Filed(n);
  }

  /** The runners deserted at `t` that are left without a permanent teardown. */
  ghost function Overlooked(cfg: Config, s: Sys, ws: map<Name, View>, t: Time): set<Name> {
    set n | n in ws && Deserted(cfg, n, At(s, n), t) && !HasTeardown(Some(ws[n]), Permanent)
  }

  lemma OneDeserted(v: View, x: View, y: View, w: View, t: Time)
    requires Active(v) && (x == v || x == Doomed(v)) && (y == x || y == Doomed(x)) && AuditStep(y, w, t)
    requires y == v ==> w == Audited(v)
    ensures HasTeardown(Some(w), Permanent)
  {
  }

  /** Whoever was marked before the audit is not overlooked, so whoever is was missed. */
  lemma OverlookedMissed(cfg: Config, s: Sys, s': Sys, vs: map<Name, View>, xs: map<Name, View>, ys: map<Name, View>,
                         ws: map<Name, View>, t0: Time, ta: Time, tb: Time, t1: Time)
    requires forall n :: At(s, n).view == Lookup(vs, n)
    requires forall n :: At(s', n).view == Lookup(ys, n)
    requires MarkedSoFar(vs, xs, DueInstance, t0, ta, {}) && MarkedSoFar(xs, ys, DueDisk, ta, tb, {})
    requires AuditedViews(ys, ws, t1)
    requires forall n :: At(s', n).view == At(s, n).view && Deserted(cfg, n, At(s, n), t0) ==>
            Deserted(cfg, n, At(s', n), tb)
    ensures Overlooked(cfg, s, ws, t0) <= Missed(cfg, s', ys, ws, {}, tb)
    ensures |Overlooked(cfg, s, ws, t0)| <= |Missed(cfg, s', ys, ws, {}, tb)|
  {
    hide Doomed, Audited, AuditStep, DueInstance, DueDisk, Retired;
    forall n | n in Overlooked(cfg, s, ws, t0) ensures n in Missed(cfg, s', ys, ws, {}, tb) {
      assert At(s, n).view == Some(vs[n]);
      assert At(s', n).view == Some(ys[n]);
      if ys[n] != vs[n] || ws[n] == Audited(vs[n]) {
        OneDeserted(vs[n], xs[n], ys[n], ws[n], t1);
      }
    }
    SubsetSize(Overlooked(cfg, s, ws, t0), Missed(cfg, s', ys, ws, {}, tb));
  }

  /** What becomes of the record of the last audit: a due audit that met no failure is
      recorded, and one that failed or was not due leaves the record alone. */
  predicate AuditNoted(last: Option<Time>, after: Option<Time>, retry: Option<Time>, t0: Time, t1: Time) {
    && (after == last || (retry.None? && after.Some? && t0 <= after.value <= t1))
    && ((last.None? || last.value + 10 * MINUTE <= t0) && retry.None? ==> after.Some? && t0 <= after.value)
    && (last.Some? && t1 < last.value + 10 * MINUTE ==> after == last && retry.None?)
  }

  /** Marks whatever must be torn down. */
  method MarkAll(cloud: Cloud, st: ReconcileState) returns (retry: Option<Time>)
    requires Wired(cloud, st) && cloud.sys.g.stage == Plan
    modifies st.repr, cloud
    ensures Wired(cloud, st) && cloud.sys.g.stage == Plan && Onward(cloud)
    ensures fresh(st.repr - old(st.repr)) && st.desiredRunnerCount == old(st.desiredRunnerCount)
    ensures st.Valid() && MarkedViews(old(st.Views()), st.Views(), old(cloud.now), cloud.now)
    ensures RetryFrom(retry, old(cloud.now), cloud.now) && (retry.Some? ==> old(cloud.trouble) < cloud.trouble)
    ensures AuditDue(old(st.lastGitHubAudit), old(cloud.now)) ==>
              var missed := Overlooked(cloud.cfg, old(cloud.sys), st.Views(), old(cloud.now));
              old(cloud.trouble) + |missed| <= cloud.trouble && (retry.None? ==> missed == {})
    ensures AuditNoted(old(st.lastGitHubAudit), st.lastGitHubAudit, retry, old(cloud.now), cloud.now)
  {
    hide Run, Init, Wired, Grew, AuditedViews, MarkedSoFar, MarkedViews, Missed, Overlooked, Deserted;
    Linked(cloud, st);
    ghost var vs, a, s, t0 := st.Views(), cloud.acts, cloud.sys, cloud.now;
    MarkInstancesForTeardown(cloud, st);
    Unwire(cloud, st);
    ghost var xs, ta, acts := st.Views(), cloud.now, cloud.acts;
    MarkDisksForTeardown(cloud, st);
    GrewOn(old(cloud.acts), acts, cloud.acts);
    Linked(cloud, st);
    ghost var ys, tb, s' := st.Views(), cloud.now, cloud.sys;
    DesertedCarries(cloud, a, s, t0);
    acts := cloud.acts;
    retry := AuditIfDue(cloud, st);
    GrewOn(old(cloud.acts), acts, cloud.acts);
    MarksAddUp(vs, xs, ys, st.Views(), t0, ta, tb, cloud.now);
    OverlookedMissed(cloud.cfg, s, s', vs, xs, ys, st.Views(), t0, ta, tb, cloud.now);
  }

  // ----- Plan: reclaiming -----

  /** The number of runners to converge on, or -1 while demand is unknown. */
  function Target(cfg: Config, desired: int): (target: int)
    requires ValidConfig(cfg)
    ensures desired < 0 <==> target == -1
    ensures desired >= 0 ==> cfg.minRunners <= target <= cfg.maxRunners
    ensures desired >= 0 && desired + cfg.minRunners <= cfg.maxRunners ==> target == desired + cfg.minRunners
    ensures desired >= 0 && desired + cfg.minRunners > cfg.maxRunners ==> target == cfg.maxRunners
  {
    if desired >= 0 then Min(desired + cfg.minRunners, cfg.maxRunners) else -1
  }

  /** Reclaiming closes the gap as far as reclaimable runners go, and no further. */
  ghost predicate Reclaims(vs: map<Name, View>, ws: map<Name, View>, target: int, back: set<Name>, t: Time) {
    if target < 0 || |ActiveSet(vs)| >= target then back == {} && ws == vs
    else
      && back <= ReclaimableSet(vs, t) && |back| == Min(target - |ActiveSet(vs)|, |ReclaimableSet(vs, t)|)
      && ws == Reactivated(vs, back)
  }

  /** The active count meets the target or falls short only for want of reclaimable
      runners, and never passes the target on the way up. */
  lemma ReclaimsCount(vs: map<Name, View>, ws: map<Name, View>, target: int, back: set<Name>, t: Time)
    requires Reclaims(vs, ws, target, back, t)
    ensures |ActiveSet(ws)| == |ActiveSet(vs)| + |back|
    ensures back != {} ==> |ActiveSet(ws)| <= target
    ensures |ActiveSet(ws)| < target ==> back == ReclaimableSet(vs, t) || target < 0
  {
    if back != {} {
      ReactivatedCount(vs, back, t);
    }
    if target >= 0 && |ActiveSet(vs)| < target {
      ReactivatedCount(vs, back, t);
      if |ActiveSet(ws)| < target {
        SameSize(back, ReclaimableSet(vs, t));
      }
    }
  }

  lemma SameSize<T>(a: set<T>, b: set<T>)
    requires a <= b && |a| == |b|
    ensures a == b
  {
    if x :| x in b && x !in a {
      SubsetSize(a, b - {x});
    }
  }

  method ReclaimForDemand(cloud: Cloud, st: ReconcileState, target: int) returns (ghost back: set<Name>, ghost t: Time)
    requires Wired(cloud, st) && cloud.sys.g.stage == Plan
    modifies st.repr, cloud
    ensures Wired(cloud, st) && cloud.sys.g.stage == Plan && Onward(cloud) && old(cloud.now) <= t <= cloud.now
    ensures fresh(st.repr - old(st.repr))
    ensures st.desiredRunnerCount == old(st.desiredRunnerCount) && st.lastGitHubAudit == old(st.lastGitHubAudit)
    ensures Reclaims(old(st.Views()), st.Views(), target, back, t)
  {
    hide Run, Init, Wired, Grew, Reactivated, ReclaimableSet, ActiveSet;
    Unwire(cloud, st);
    GrewNone(cloud.acts);
    back, t := {}, cloud.now;
    if target >= 0 {
      var active := st.ActiveRunnerCount();
      if active < target {
        back, t := CancelPendingScaleDowns(cloud, st, target - active);
      }
    }
  }

  // ----- Act: driving teardowns -----

  /** The next cycle comes in time for the runner: by the end of its window, or by `limit`. */
  predicate Covered(w: View, next: Option<Time>, limit: Time) {
    w.teardown.Some? ==>
      && next.Some?
      && if w.teardown.value.phase == Window
         then w.teardown.value.removalAfter.Some? && next.value <= w.teardown.value.removalAfter.value
         else next.value <= limit
  }

  method StartActing(cloud: Cloud, st: ReconcileState)
    requires Wired(cloud, st) && cloud.sys.g.stage == Plan
    modifies cloud
    ensures Wired(cloud, st) && cloud.sys.g.stage == Act && Onward(cloud) && cloud.now == old(cloud.now)
  {
    hide Run, Init;
    cloud.Step(BeginTeardowns);
  }

  method PruneGone(cloud: Cloud, st: ReconcileState)
    requires Wired(cloud, st) && cloud.sys.g.stage == Act
    modifies st`runners, cloud
    ensures Wired(cloud, st) && cloud.sys.g.stage == Scale && Onward(cloud) && cloud.now == old(cloud.now)
    ensures st.Views() == Pruned(old(st.Views()))
  {
    hide Run, Init;
    st.Prune();
    cloud.Step(Prune);
  }

  // ----- Act: scaling -----

  ghost predicate AllCovered(ws: map<Name, View>, next: Option<Time>, limit: Time) {
    forall n :: n in ws ==> Covered(ws[n], next, limit)
  }

  lemma CoveredEarlier(w: View, next: Option<Time>, other: Option<Time>, limit: Time, later: Time)
    requires Covered(w, next, limit) && limit <= later
    ensures Covered(w, Earlier(next, other), later)
  {
  }

  /** A deadline no later than any runner's own covers them all. */
  lemma OwnCovered(vs: map<Name, View>, ws: map<Name, View>, own: map<Name, Pass>, next: Option<Time>, t1: Time,
          t2: Time)
    requires Drives(vs, ws, own, t1, t2) && NoLaterThanAny(next, own)
    ensures AllCovered(Pruned(ws), next, t2 + Delay(AllClean(own)))
  {
    hide IdealPass, Stuck;
    forall n | n in Pruned(ws) ensures Covered(ws[n], next, t2 + Delay(AllClean(own))) {
      assert Outcome(vs[n], ws[n], own[n]) && InTime(own[n], t1, t2) && NoLater(next, own[n].deadline);
    }
  }

  /** Runners given up are due when their window closes. */
  lemma ScaledDownCovered(vs: map<Name, View>, ws: map<Name, View>, cands: set<Name>, picked: set<Name>,
                          t0: Time, t1: Time, next: Option<Time>, deadline: Option<Time>, limit: Time, later: Time)
    requires AllCovered(vs, next, limit) && limit <= later
    requires ScaledDown(vs, ws, cands, picked, t0, t1, deadline)
    ensures AllCovered(ws, Earlier(next, deadline), later)
  {
    forall n | n in ws ensures Covered(ws[n], Earlier(next, deadline), later) {
      if n !in picked {
        CoveredEarlier(vs[n], next, deadline, limit, later);
      }
    }
  }

  /** A failed attempt always asks for another cycle. */
  lemma ProvisionedCovered(cfg: Config, vs: map<Name, View>, ws: map<Name, View>, names: seq<Name>,
                           outcomes: seq<Option<Instance>>, created: seq<Name>,
                           next: Option<Time>, retry: Option<Time>, limit: Time, later: Time)
    requires AllCovered(vs, next, limit) && ProvisionedAs(cfg, vs, ws, names, outcomes, created) && limit <= later
    requires retry.None? ==> |created| == |names|
    requires retry.Some? ==> retry.value <= later
    ensures AllCovered(ws, Earlier(next, retry), later)
  {
    CreatedWhich(names, outcomes, |names|);
    forall n | n in ws ensures Covered(ws[n], Earlier(next, retry), later) {
      if n in names {
        EitherCreatedOrCondemned(cfg, vs, ws, names, outcomes, created, n);
        var i :| 0 <= i < |names| && names[i] == n;
        assert ws[names[i]] == OutcomeView(outcomes[i]);
      } else {
        assert names[..|names|] == names;
        assert Lookup(ws, n) == Lookup(vs, n);
        CoveredEarlier(vs[n], next, retry, limit, later);
      }
    }
  }

  /** How a cycle brought the active count to the target. */
  datatype Scaling =
    | Unscaled
    | Grown(names: seq<Name>, outcomes: seq<Option<Instance>>, created: seq<Name>, retry: Option<Time>)
    | Shrunk(cands: set<Name>, picked: set<Name>, order: seq<Spare>, deadline: Option<Time>)

  ghost predicate Scales(cfg: Config, vs: map<Name, View>, ws: map<Name, View>, target: int, how: Scaling,
          t0: Time, t1: Time) {
    var active := |ActiveSet(vs)|;
    match how
    case Unscaled => (target < 0 || active == target) && ws == vs
    case Grown(names, outcomes, created, retry) =>
      && active < target && ProvisionedAs(cfg, vs, ws, names, outcomes, created)
      && (names == [] || |names| == Wanted(cfg, |BackedSet(vs)|, target - active))
      && (retry.None? <==> |created| == target - active || |BackedSet(ws)| >= cfg.maxRunners)
      && RetryFrom(retry, t0, t1)
    case Shrunk(cands, picked, order, deadline) =>
      && 0 <= target < active && ScaledDown(vs, ws, cands, picked, t0, t1, deadline)
      && |picked| == Min(active - target, |cands|)
      && Chosen(vs, cands, picked, order)
  }

  /** Fewer runners were created than there was room and demand for. */
  predicate Short(how: Scaling) {
    how.Grown? && how.retry.Some?
  }

  /** The deadline scaling asked for. */
  function AskedBy(how: Scaling): Option<Time> {
    match how
    case Unscaled => None
    case Grown(_, _, _, retry) => retry
    case Shrunk(_, _, _, deadline) => deadline
  }

  /** Scaling moves the active count towards the target and never across it, and adds no
      instance beyond the limit; unless it falls short it closes the gap or reaches the
      limit. */
  lemma ScalesCount(cfg: Config, vs: map<Name, View>, ws: map<Name, View>, target: int, how: Scaling, t0: Time,
          t1: Time)
    requires Scales(cfg, vs, ws, target, how, t0, t1)
    ensures |ActiveSet(vs)| < target ==> |ActiveSet(vs)| <= |ActiveSet(ws)| <= target
    ensures 0 <= target < |ActiveSet(vs)| ==> target <= |ActiveSet(ws)| <= |ActiveSet(vs)|
    ensures target < 0 || |ActiveSet(vs)| == target ==> ws == vs
    ensures |BackedSet(ws)| <= Max(cfg.maxRunners, |BackedSet(vs)|)
    ensures |ActiveSet(vs)| < target && !Short(how) ==>
              |BackedSet(ws)| == |BackedSet(vs)| + target - |ActiveSet(vs)| || |BackedSet(ws)| >= cfg.maxRunners
  {
    match how
    case Unscaled =>
    case Grown(names, outcomes, created, _) => GrownCount(cfg, vs, ws, names, outcomes, created);
    case Shrunk(cands, picked, _, deadline) =>
      ScaledDownCount(vs, ws, cands, picked, t0, t1, deadline);
      assert BackedSet(ws) == BackedSet(vs);
  }

  /** Every creation adds one instance, and one active runner if the instance is up. */
  lemma GrownCount(cfg: Config, vs: map<Name, View>, ws: map<Name, View>, names: seq<Name>,
                   outcomes: seq<Option<Instance>>, created: seq<Name>)
    requires ProvisionedAs(cfg, vs, ws, names, outcomes, created)
    ensures |BackedSet(ws)| == |BackedSet(vs)| + |created| <= |BackedSet(vs)| + |names|
    ensures |ActiveSet(ws)| == |ActiveSet(vs)| + |set n | n in created && n in ActiveSet(ws)|
    ensures |ActiveSet(vs)| <= |ActiveSet(ws)| <= |ActiveSet(vs)| + |created|
  {
    hide ProvisionedAs;
    var all, up := set n | n in created, set n | n in created && n in ActiveSet(ws);
    CreatedCount(cfg, vs, ws, names, outcomes, created);
    SubsetSize(up, all);
    forall n ensures (n in ActiveSet(ws) <==> n in ActiveSet(vs) + up) && (n in up ==> n !in vs) {
      GrownView(cfg, vs, ws, names, outcomes, created, n);
    }
    CreatedBacked(cfg, vs, ws, names, outcomes, created);
    GrownBy(ActiveSet(vs), up, ActiveSet(ws));
  }

  // ----- When the target is met -----

  /** The active runners scale-down may not give up: with a job, or in their grace period. */
  ghost function KeptSet(vs: map<Name, View>, t: Time): set<Name> {
    set n | n in vs && Active(vs[n]) && (vs[n].busy || !PastGrace(vs[n].instance.value.created, t))
  }

  lemma KeptCount(vs: map<Name, View>, t: Time)
    ensures |ActiveSet(vs)| == |CandidateSet(vs, t)| + |KeptSet(vs, t)|
  {
    assert ActiveSet(vs) == CandidateSet(vs, t) + KeptSet(vs, t);
    assert CandidateSet(vs, t) !! KeptSet(vs, t);
  }

  /** A cycle that finds too many active runners ends with no more than the target if and
      only if the excess can be given up; that is, when nobody outgrows the grace period
      meanwhile, if and only if the target has room for those that must be kept. */
  lemma TargetMetExactlyWhen(cfg: Config, vs: map<Name, View>, ws: map<Name, View>, target: int, how: Scaling,
                             t0: Time, t1: Time)
    requires Scales(cfg, vs, ws, target, how, t0, t1) && 0 <= target < |ActiveSet(vs)|
    ensures how.Shrunk? && (|ActiveSet(ws)| <= target <==> |ActiveSet(vs)| - target <= |how.cands|)
    ensures |KeptSet(vs, t0)| <= target ==> |ActiveSet(ws)| <= target
    ensures |ActiveSet(ws)| <= target ==> |KeptSet(vs, t1)| <= target
    ensures KeptSet(vs, t0) == KeptSet(vs, t1) ==> (|ActiveSet(ws)| <= target <==> |KeptSet(vs, t0)| <= target)
  {
    ScaledDownCount(vs, ws, how.cands, how.picked, t0, t1, how.deadline);
    SubsetSize(CandidateSet(vs, t0), how.cands);
    SubsetSize(how.cands, CandidateSet(vs, t1));
    KeptCount(vs, t0);
    KeptCount(vs, t1);
  }

  /** One runner at work, and nobody wanted. */
  const AT_WORK := map["r" := EMPTY_VIEW.(instance := Some(Instance(Running, None, None)), busy := true)]

  lemma BusyScales(cfg: Config, t0: Time, t1: Time)
    requires t0 <= t1
    ensures Scales(cfg, AT_WORK, AT_WORK, 0, Shrunk({}, {}, [], None), t0, t1)
  {
    assert ActiveSet(AT_WORK) == {"r"} && CandidateSet(AT_WORK, t0) == {} && CandidateSet(AT_WORK, t1) == {};
    var none: seq<Spare> := [];
    SettledResult(none);
    assert Names(none) == {} && none[..0] == none;
  }

  /** However the cycle scales, the busy runner stays above the target of zero. */
  lemma BusyStaysAbove(cfg: Config, ws: map<Name, View>, how: Scaling, t0: Time, t1: Time)
    requires Scales(cfg, AT_WORK, ws, 0, how, t0, t1)
    ensures |ActiveSet(ws)| == 1 > 0
  {
    assert ActiveSet(AT_WORK) == {"r"} == KeptSet(AT_WORK, t1);
    TargetMetExactlyWhen(cfg, AT_WORK, ws, 0, how, t0, t1);
    ScalesCount(cfg, AT_WORK, ws, 0, how, t0, t1);
  }

  /** Brings the active count to the target, as far as this cycle can. */
  method ScaleToTarget(cloud: Cloud, st: ReconcileState, target: int, first: Option<Time>, ghost delay: Time)
    returns (next: Option<Time>, ghost how: Scaling)
    requires Wired(cloud, st) && cloud.sys.g.stage == Scale
    requires AllCovered(st.Views(), first, cloud.now + delay) && delay <= RECONCILE_RETRY_DELAY
    modifies st.repr, cloud
    ensures Wired(cloud, st) && Onward(cloud)
    ensures cloud.sys.g.stage == Scale || (target > 0 && cloud.sys.g.stage == Stage.Provisioning)
    ensures fresh(st.repr - old(st.repr))
    ensures st.desiredRunnerCount == old(st.desiredRunnerCount) && st.lastGitHubAudit == old(st.lastGitHubAudit)
    ensures forall n :: At(cloud.sys, n).note.prov == NoProvision
    ensures Scales(cloud.cfg, old(st.Views()), st.Views(), target, how, old(cloud.now), cloud.now)
    ensures AllCovered(st.Views(), next, cloud.now + if Short(how) then RECONCILE_RETRY_DELAY else delay)
    ensures NoLater(next, first) && NoLater(next, AskedBy(how)) && (next == first || next == AskedBy(how))
    ensures Short(how) ==> old(cloud.trouble) < cloud.trouble
  {
    hide Run, Init, Wired, Grew, AllCovered, ScaledDown;
    hide ProvisionedAs, ActiveSet, BackedSet, Chosen;
    Unwire(cloud, st);
    GrewNone(cloud.acts);
    ghost var vs := st.Views();
    next, how := first, Unscaled;
    var active := st.ActiveRunnerCount();
    NothingPending(cloud);
    if target >= 0 {
      if active < target {
        ghost var created, names, outcomes;
        var retry;
        retry, created, names, outcomes := ScaleUp(cloud, st, active, target);
        Unwire(cloud, st);
        how := Grown(names, outcomes, created, retry);
        ProvisionedCovered(cloud.cfg, vs, st.Views(), names, outcomes, created,
                           first, retry, old(cloud.now) + delay,
                           cloud.now + if retry.Some? then RECONCILE_RETRY_DELAY else delay);
        next := Earlier(first, retry);
      } else if active > target {
        ghost var cands, picked, order;
        var deadline;
        deadline, cands, picked, order := ScaleDownTo(cloud, st, active, target);
        Unwire(cloud, st);
        NothingPending(cloud);
        how := Shrunk(cands, picked, order, deadline);
        ScaledDownCovered(vs, st.Views(), cands, picked, old(cloud.now), cloud.now, first, deadline,
                          old(cloud.now) + delay, cloud.now + delay);
        next := Earlier(first, deadline);
      }
    }
  }

  // ----- The whole cycle -----

  datatype Result = Next(at: Option<Time>) | ErrScaleSetDrained

  /** The records after each phase of a cycle, what was seen and done in it, and when each
      phase ended. `seen` is the history when planning began, `acts` when the teardowns
      ended, `start` its length when they began. */
  datatype Trace = Trace(
    ok: bool, clean: bool,
    heard: map<Name, View>, sight: Sight,
    joined: map<Name, View>, seen: seq<Action>, marked: map<Name, View>, retry: Option<Time>,
    back: set<Name>, reclaimedAt: Time, planned: map<Name, View>,
    driven: map<Name, View>, own: map<Name, Pass>, start: nat, acts: seq<Action>, how: Scaling,
    t0: Time, t1: Time, t2: Time, t3: Time)

  /** A cycle that could observe: each phase works on what the one before it left. */
  ghost predicate Cycles(cfg: Config, desired: int, tr: Trace, after: map<Name, View>)
    requires ValidConfig(cfg)
  {
    var target := Target(cfg, desired);
    && tr.t0 <= tr.t1 <= tr.t2 <= tr.t3
    && Joined(tr.heard, tr.joined, tr.sight.found, tr.sight.disks)
    && MarkedViews(tr.joined, tr.marked, tr.t0, tr.t1)
    && tr.t0 <= tr.reclaimedAt <= tr.t1 && Reclaims(tr.marked, tr.planned, target, tr.back, tr.reclaimedAt)
    && Drives(tr.planned, tr.driven, tr.own, tr.t1, tr.t2) && (tr.clean <==> AllClean(tr.own))
    && Scales(cfg, Pruned(tr.driven), after, target, tr.how, tr.t2, tr.t3)
    && RetryFrom(tr.retry, tr.t0, tr.t1)
  }

  /** What the trace shows was seen, done and timed in the run itself, between two moments. */
  ghost predicate Rooted(cfg: Config, origin: Sys, before: seq<Action>, after: seq<Action>, t: Time, now: Time,
          tr: Trace) {
    && Sighted(cfg, origin, before, after, tr.sight)
    && Grew(tr.sight.second, tr.seen) && Grew(tr.seen, tr.acts) && Grew(tr.acts, after) && |tr.seen| <= tr.start
    && Anchored(tr.planned, tr.driven, tr.own, tr.acts, tr.start, origin.g.now)
    && t <= tr.t0 && tr.t3 <= now
  }

  /** A due audit is made, noted, and finds every runner that was deserted when planning
      began, unless a call failed; and no audit is noted that was not due. */
  ghost predicate Swept(cfg: Config, origin: Sys, last: Option<Time>, after: Option<Time>, tr: Trace) {
    && Legal(cfg, origin, tr.seen) && AuditNoted(last, after, tr.retry, tr.t0, tr.t1)
    && (tr.retry.None? ==> NotFound(cfg, origin, last, tr) == {})
  }

  /** The runners a due audit should have found deserted and did not. */
  ghost function NotFound(cfg: Config, origin: Sys, last: Option<Time>, tr: Trace): set<Name>
    requires Legal(cfg, origin, tr.seen)
  {
    if last.None? || last.value + 10 * MINUTE <= tr.t0
    then Overlooked(cfg, Exec(cfg, origin, tr.seen), tr.planned, tr.t0)
    else {}
  }

  /** Someone asked for this deadline: the audit, a runner's pass, or scaling. */
  ghost predicate Asked(at: Option<Time>, tr: Trace) {
    at == tr.retry || at == AskedBy(tr.how) || exists n :: n in tr.own && at == tr.own[n].deadline
  }

  /** The earliest of the deadlines asked for, if there was one. */
  ghost predicate Soonest(at: Option<Time>, tr: Trace) {
    (at.Some? ==> Asked(at, tr)) && NoLater(at, tr.retry) && NoLater(at, AskedBy(tr.how)) && NoLaterThanAny(at, tr.own)
  }

  method PlanCycle(cloud: Cloud, st: ReconcileState, target: int)
    returns (retry: Option<Time>, ghost marked: map<Name, View>, ghost back: set<Name>, ghost at: Time)
    requires Wired(cloud, st) && cloud.sys.g.stage == Plan
    modifies st.repr, cloud
    ensures Wired(cloud, st) && cloud.sys.g.stage == Plan && Onward(cloud)
    ensures fresh(st.repr - old(st.repr)) && st.desiredRunnerCount == old(st.desiredRunnerCount)
    ensures MarkedViews(old(st.Views()), marked, old(cloud.now), cloud.now)
    ensures old(cloud.now) <= at <= cloud.now && Reclaims(marked, st.Views(), target, back, at)
    ensures RetryFrom(retry, old(cloud.now), cloud.now) && (retry.Some? ==> old(cloud.trouble) < cloud.trouble)
    ensures st.Valid() && (AuditDue(old(st.lastGitHubAudit), old(cloud.now)) ==>
                             var missed := Overlooked(cloud.cfg, old(cloud.sys), st.Views(), old(cloud.now));
                             old(cloud.trouble) + |missed| <= cloud.trouble && (retry.None? ==> missed == {}))
    ensures AuditNoted(old(st.lastGitHubAudit), st.lastGitHubAudit, retry, old(cloud.now), cloud.now)
  {
    hide Run, Init, Wired, Grew, MarkedViews, Reclaims, Overlooked;
    Unwire(cloud, st);
    ghost var vs := st.Views();
    retry := MarkAll(cloud, st);
    ghost var acts, t1 := cloud.acts, cloud.now;
    marked := st.Views();
    back, at := ReclaimForDemand(cloud, st, target);
    GrewOn(old(cloud.acts), acts, cloud.acts);
    MarkedLater(vs, marked, old(cloud.now), t1, cloud.now);
    Unwire(cloud, st);
    ReclaimOverlooks(cloud.cfg, old(cloud.sys), marked, st.Views(), target, back, at, old(cloud.now));
  }

  /** Reclaiming never takes a permanent teardown back. */
  lemma ReclaimOverlooks(cfg: Config, s: Sys, vs: map<Name, View>, ws: map<Name, View>, target: int,
                         back: set<Name>, at: Time, t: Time)
    requires Reclaims(vs, ws, target, back, at)
    ensures Overlooked(cfg, s, ws, t) <= Overlooked(cfg, s, vs, t)
    ensures |Overlooked(cfg, s, ws, t)| <= |Overlooked(cfg, s, vs, t)|
  {
    hide Deserted;
    SubsetSize(Overlooked(cfg, s, ws, t), Overlooked(cfg, s, vs, t));
  }

  lemma MarkedLater(vs: map<Name, View>, ws: map<Name, View>, t0: Time, t1: Time, t2: Time)
    requires MarkedViews(vs, ws, t0, t1) && t1 <= t2
    ensures MarkedViews(vs, ws, t0, t2)
  {
  }

  method ActCycle(cloud: Cloud, st: ReconcileState, first: Option<Time>)
    returns (next: Option<Time>, ghost driven: map<Name, View>, ghost own: map<Name, Pass>, ghost start: nat,
             ghost acts: seq<Action>)
    requires Wired(cloud, st) && cloud.sys.g.stage == Plan
    modifies st.repr, cloud
    ensures Wired(cloud, st) && cloud.sys.g.stage == Scale && Onward(cloud)
    ensures fresh(st.repr - old(st.repr))
    ensures st.desiredRunnerCount == old(st.desiredRunnerCount) && st.lastGitHubAudit == old(st.lastGitHubAudit)
    ensures Drives(old(st.Views()), driven, own, old(cloud.now), cloud.now)
    ensures Anchored(old(st.Views()), driven, own, acts, start, cloud.origin.g.now)
    ensures Grew(old(cloud.acts), acts) && Grew(acts, cloud.acts) && |old(cloud.acts)| <= start
    ensures st.Views() == Pruned(driven)
    ensures AllCovered(st.Views(), next, cloud.now + Delay(AllClean(own)))
    ensures NoLater(next, first) && NoLaterThanAny(next, own) && OneOf(next, first, own)
    ensures old(cloud.trouble) + |Unclean(own)| <= cloud.trouble
  {
    hide Run, Init, Wired, AllCovered, Pruned, Drives, Anchored, NoLaterThanAny, OneOf, AllClean, Unclean;
    Unwire(cloud, st);
    ghost var vs := st.Views();
    StartActing(cloud, st);
    Unwire(cloud, st);
    ghost var t1 := cloud.now;
    start := |cloud.acts|;
    next, own := DriveTeardowns(cloud, st, first);
    Unwire(cloud, st);
    driven, acts := st.Views(), cloud.acts;
    OwnCovered(vs, driven, own, next, t1, cloud.now);
    PruneGone(cloud, st);
  }

  method FinishCycle(cloud: Cloud, st: ReconcileState)
    requires Wired(cloud, st) && cloud.sys.g.stage in {Scale, Stage.Provisioning}
    requires forall n :: At(cloud.sys, n).note.prov == NoProvision
    modifies cloud
    ensures Wired(cloud, st) && cloud.sys.g.stage == Idle && Onward(cloud) && cloud.now == old(cloud.now)
    ensures old(cloud.sys).g.stage == Scale && st.runners == map[] ==> Theorems.Drained(cloud.cfg, cloud.sys)
  {
    hide Run, Init;
    if cloud.sys.g.stage == Scale && st.runners == map[] {
      cloud.Invariant();
      forall n ensures At(cloud.sys, n).view.None? {
        assert At(cloud.sys, n).view == Lookup(st.Views(), n);
      }
      NothingSeenNothingLeft(cloud.cfg, cloud.sys);
    }
    cloud.Step(EndCycle);
  }

  /** Something the cycle set out to do was not done. */
  ghost predicate Hindered(tr: Trace) {
    !tr.ok || !tr.clean || Short(tr.how)
  }

  /** The earlier of what was asked for before and what scaling asks for is the earliest of all. */
  lemma SoonestOfAll(next: Option<Time>, first: Option<Time>, tr: Trace)
    requires NoLater(next, first) && NoLater(next, AskedBy(tr.how)) && (next == first || next == AskedBy(tr.how))
    requires NoLater(first, tr.retry) && NoLaterThanAny(first, tr.own) && OneOf(first, tr.retry, tr.own)
    ensures Soonest(next, tr)
  {
    hide AskedBy;
  }

  lemma NotClean(own: map<Name, Pass>)
    requires !AllClean(own)
    ensures |Unclean(own)| > 0
  {
    if |Unclean(own)| == 0 {
      CleanWhenNone(own);
    }
  }

  /** Plan, act and scale: a cycle once its observation has succeeded. */
  method Converge(cloud: Cloud, st: ReconcileState, ghost heard: map<Name, View>, ghost sight: Sight)
    returns (next: Option<Time>, ghost tr: Trace)
    requires Wired(cloud, st) && cloud.sys.g.stage == Plan && Joined(heard, st.Views(), sight.found, sight.disks)
    modifies st.repr, cloud
    ensures Wired(cloud, st) && cloud.sys.g.stage == Idle && Onward(cloud)
    ensures fresh(st.repr - old(st.repr)) && st.desiredRunnerCount == old(st.desiredRunnerCount)
    ensures cloud.Valid() && tr.ok && tr.heard == heard && tr.sight == sight
    ensures Cycles(cloud.cfg, st.desiredRunnerCount, tr, st.Views())
    ensures tr.seen == old(cloud.acts)
    ensures Swept(cloud.cfg, cloud.origin, old(st.lastGitHubAudit), st.lastGitHubAudit, tr)
    ensures Grew(old(cloud.acts), tr.acts) && Grew(tr.acts, cloud.acts) && |old(cloud.acts)| <= tr.start
    ensures Anchored(tr.planned, tr.driven, tr.own, tr.acts, tr.start, cloud.origin.g.now)
    ensures old(cloud.now) <= tr.t0 && tr.t3 <= cloud.now
    ensures AllCovered(st.Views(), next, cloud.now + Delay(!Hindered(tr)))
    ensures cloud.cfg.maxRunners == 0 && st.runners == map[] ==> Theorems.Drained(cloud.cfg, cloud.sys)
    ensures Soonest(next, tr)
    ensures Hindered(tr) || tr.retry.Some? ==> old(cloud.trouble) < cloud.trouble
    ensures old(cloud.trouble) + |NotFound(cloud.cfg, cloud.origin, old(st.lastGitHubAudit), tr)| + |Unclean(tr.own)| <=
            cloud.trouble
  {
    hide Run, Init, Wired, Joined, MarkedViews, Reclaims, Drives, Anchored;
    hide Scales, AllCovered, Pruned, Theorems.Drained, Short, NoLaterThanAny, OneOf, AllClean, Unclean;
    hide Soonest, Overlooked;
    Unwire(cloud, st);
    ghost var joined, seen, last, t0 := st.Views(), cloud.acts, st.lastGitHubAudit, cloud.now;
    var target := Target(cloud.cfg, st.desiredRunnerCount);
    ghost var marked, back, at;
    var retry;
    retry, marked, back, at := PlanCycle(cloud, st, target);
    Unwire(cloud, st);
    ghost var planned, t1 := st.Views(), cloud.now;
    ghost var driven, own, start, acts;
    var first;
    first, driven, own, start, acts := ActCycle(cloud, st, retry);
    Unwire(cloud, st);
    ghost var t2, clean := cloud.now, AllClean(own);
    if !clean {
      NotClean(own);
    }
    ghost var how;
    next, how := ScaleToTarget(cloud, st, target, first, Delay(clean));
    Unwire(cloud, st);
    ghost var ws := st.Views();
    FinishCycle(cloud, st);
    Unwire(cloud, st);
    tr := Trace(true, clean, heard, sight, joined, seen, marked, retry, back, at, planned, driven, own, start, acts,
                how, t0, t1, t2, cloud.now);
    SoonestOfAll(next, first, tr);
  }

  lemma PassiveGrew(a: seq<Action>, b: seq<Action>)
    requires GrewPassively(a, b)
    ensures Grew(a, b)
  {
  }

  method RetryAfterFailure(cloud: Cloud, st: ReconcileState) returns (at: Option<Time>)
    requires Wired(cloud, st)
    modifies cloud
    ensures Wired(cloud, st) && cloud.sys.g.stage == old(cloud.sys).g.stage && old(cloud.now) <= cloud.now
    ensures GrewPassively(old(cloud.acts), cloud.acts) && at == Some(cloud.now + RECONCILE_RETRY_DELAY)
    ensures cloud.trouble == old(cloud.trouble)
  {
    hide Run, Init;
    var now := cloud.Now();
    at := Some(now + RECONCILE_RETRY_DELAY);
  }

  /** When every teardown is covered and no deadline was asked for, there is none. */
  lemma NeverUncovered(ws: map<Name, View>, limit: Time)
    requires AllCovered(ws, None, limit)
    ensures TearingSet(ws) == {}
  {
    forall n | n in ws ensures ws[n].teardown.None? {
      assert Covered(ws[n], None, limit);
    }
  }

  /** Hears the events, then observes. */
  method Gather(s: Scaler, st: ReconcileState) returns (ok: bool, ghost heard: map<Name, View>, ghost sight: Sight)
    requires Wired(s.cloud, st) && s.cloud.sys.g.stage == Idle && s !in st.repr
    modifies s`jobEvents, st.repr, s.cloud
    ensures Wired(s.cloud, st) && s.cloud.sys.g.stage == (if ok then Plan else Idle) && Onward(s.cloud)
    ensures fresh(st.repr - old(st.repr)) && s.jobEvents == [] && st.desiredRunnerCount == s.desiredRunnerCount
    ensures st.lastGitHubAudit == old(st.lastGitHubAudit)
    ensures heard == ApplyEvents(old(st.Views()), old(s.jobEvents))
    ensures ok ==> Joined(heard, st.Views(), sight.found, sight.disks)
    ensures ok ==> Sighted(s.cloud.cfg, s.cloud.origin, old(s.cloud.acts), s.cloud.acts, sight)
    ensures !ok ==> st.Views() == heard && GrewPassively(old(s.cloud.acts), s.cloud.acts)
    ensures !ok ==> old(s.cloud.trouble) < s.cloud.trouble
  {
    hide Run, Init, Wired, Grew, GrewPassively, Joined, ApplyEvents, Sighted;
    var cloud := s.cloud;
    Unwire(cloud, st);
    ProcessJobEvents(s, st);
    Unwire(cloud, st);
    ghost var acts := cloud.acts;
    heard := st.Views();
    PassiveGrew(old(cloud.acts), acts);
    ok, sight := ObserveRunners(cloud, st);
    Unwire(cloud, st);
    GrewOn(old(cloud.acts), acts, cloud.acts);
    if ok {
      SightedSince(cloud.cfg, cloud.origin, old(cloud.acts), acts, cloud.acts, cloud.acts, sight);
    } else {
      PassiveOn(old(cloud.acts), acts, cloud.acts);
    }
  }

  lemma SightedSince(cfg: Config, origin: Sys, a: seq<Action>, b: seq<Action>, c: seq<Action>, d: seq<Action>, g: Sight)
    requires GrewPassively(a, b) && Sighted(cfg, origin, b, c, g) && Grew(c, d)
    ensures Sighted(cfg, origin, a, d, g)
  {
    PassiveOn(a, b, g.first);
    GrewOn(g.second, c, d);
  }

  /** What a cycle that could observe returns. */
  method Conclude(s: Scaler, st: ReconcileState, next: Option<Time>, ghost limit: Time) returns (result: Result)
    requires st.Valid() && s !in st.repr && AllCovered(st.Views(), next, limit)
    modifies s`activeRunnerCount
    ensures st.Valid() && s.activeRunnerCount == |ActiveSet(st.Views())|
    ensures result.Next? ==> result == Next(next)
    ensures result == ErrScaleSetDrained <==>
              s.cloud.cfg.minRunners == 0 && s.cloud.cfg.maxRunners == 0 && st.Views() == map[]
  {
    hide AllCovered, ActiveSet, TearingSet;
    s.activeRunnerCount := st.ActiveRunnerCount();
    assert st.Valid();
    var drained := NothingTracked(st);
    if s.cloud.cfg.minRunners == 0 && s.cloud.cfg.maxRunners == 0 && drained {
      return ErrScaleSetDrained;
    }
    var tearing := st.TeardownCount();
    if tearing > 0 && next.None? {
      NeverUncovered(st.Views(), limit);
      assert false;
    }
    result := Next(next);
  }

  method NothingTracked(st: ReconcileState) returns (none: bool)
    requires st.Valid()
    ensures none <==> st.Views() == map[]
  {
    assert st.Views().Keys == st.runners.Keys;
    none := |st.runners| == 0;
  }

  /** One gather, plan, act cycle. */
  method Reconcile(s: Scaler, st: ReconcileState) returns (result: Result, ghost tr: Trace)
    requires Wired(s.cloud, st) && s.cloud.sys.g.stage == Idle && s !in st.repr
    modifies s`jobEvents, s`activeRunnerCount, st.repr, s.cloud
    ensures Wired(s.cloud, st) && s.cloud.sys.g.stage == Idle && Onward(s.cloud)
    ensures fresh(st.repr - old(st.repr)) && s.jobEvents == [] && st.desiredRunnerCount == s.desiredRunnerCount
    ensures s.cloud.Valid() && st.Valid() && tr.heard == ApplyEvents(old(st.Views()), old(s.jobEvents))
    ensures !tr.ok ==> st.Views() == tr.heard && s.activeRunnerCount == old(s.activeRunnerCount)
    ensures !tr.ok ==> GrewPassively(old(s.cloud.acts), s.cloud.acts) && st.lastGitHubAudit == old(st.lastGitHubAudit)
    ensures tr.ok ==> Swept(s.cloud.cfg, s.cloud.origin, old(st.lastGitHubAudit), st.lastGitHubAudit, tr)
    ensures !tr.ok ==> result == Next(Some(s.cloud.now + RECONCILE_RETRY_DELAY))
    ensures tr.ok ==> Cycles(s.cloud.cfg, s.desiredRunnerCount, tr, st.Views())
    ensures tr.ok ==> s.activeRunnerCount == |ActiveSet(st.Views())|
    ensures tr.ok && result.Next? ==>
              AllCovered(st.Views(), result.at, s.cloud.now + Delay(!Hindered(tr)))
    ensures result == ErrScaleSetDrained <==>
              tr.ok && s.cloud.cfg.minRunners == 0 && s.cloud.cfg.maxRunners == 0 && st.Views() == map[]
    ensures result == ErrScaleSetDrained ==> Theorems.Drained(s.cloud.cfg, s.cloud.sys)
    ensures tr.ok && result.Next? ==> Soonest(result.at, tr)
    ensures Hindered(tr) || (tr.ok && tr.retry.Some?) ==>
              old(s.cloud.trouble) < s.cloud.trouble
    ensures tr.ok ==> Rooted(s.cloud.cfg, s.cloud.origin, old(s.cloud.acts), s.cloud.acts, old(s.cloud.now),
            s.cloud.now, tr)
    ensures tr.ok ==>
              old(s.cloud.trouble) + |NotFound(s.cloud.cfg, s.cloud.origin, old(st.lastGitHubAudit), tr)| +
              |Unclean(tr.own)| <= s.cloud.trouble
  {
    hide Run, Init, Wired, GrewPassively, Joined, Sighted, Anchored;
    hide Cycles, AllCovered, ActiveSet, ApplyEvents, Theorems.Drained, Short, NoLaterThanAny, Unclean, Soonest;
    hide NotFound;
    var cloud := s.cloud;
    Unwire(cloud, st);
    ghost var heard, sight;
    var ok;
    ok, heard, sight := Gather(s, st);
    Unwire(cloud, st);
    ghost var acts := cloud.acts;
    if !ok {
      tr := Idled(heard);
      var at := RetryAfterFailure(cloud, st);
      Unwire(cloud, st);
      PassiveOn(old(cloud.acts), acts, cloud.acts);
      PassiveGrew(old(cloud.acts), cloud.acts);
      return Next(at), tr;
    }
    var next;
    next, tr := Converge(cloud, st, heard, sight);
    Unwire(cloud, st);
    SightAfter(cloud.cfg, cloud.origin, old(cloud.acts), acts, cloud.acts, sight);
    assert st.Views().Keys == st.runners.Keys;
    result := Conclude(s, st, next, cloud.now + Delay(!Hindered(tr)));
  }

  lemma SightAfter(cfg: Config, origin: Sys, a: seq<Action>, b: seq<Action>, c: seq<Action>, g: Sight)
    requires Sighted(cfg, origin, a, b, g) && Grew(b, c)
    ensures Sighted(cfg, origin, a, c, g) && Grew(g.second, b)
  {
    GrewOn(g.second, b, c);
  }

  /** The trace of a cycle that could not observe. */
  function Idled(heard: map<Name, View>): Trace {
    Trace(false, false, heard, Sight(map[], map[], [], []), map[], [], map[], None, {}, 0, map[], map[], map[], 0, [],
          Unscaled, 0, 0, 0, 0)
  }
}
