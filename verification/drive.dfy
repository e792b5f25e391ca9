/** Driving every teardown once, and what each runner's own pass came to. */
module Driving {
  import opened Types
  import opened Protocol
  import opened System
  import opened Clouds
  import opened Runners
  import opened Teardowns
  import opened Capacity

  // ----- Clocks -----

  /** The clock after a history that began at `t0`. */
  function ClockAfter(t0: Time, acts: seq<Action>): Time {
    if |acts| == 0 then t0
    else if acts[|acts| - 1].Tick? then acts[|acts| - 1].now
    else ClockAfter(t0, acts[..|acts| - 1])
  }

  lemma {:induction false} ClockOfRun(cfg: Config, s: Sys, acts: seq<Action>)
    requires Legal(cfg, s, acts)
    ensures Exec(cfg, s, acts).g.now == ClockAfter(s.g.now, acts)
  {
    if |acts| > 0 {
      ClockOfRun(cfg, s, acts[..|acts| - 1]);
    }
  }

  lemma ClockNow(cloud: Cloud)
    requires cloud.Valid()
    ensures cloud.now == ClockAfter(cloud.origin.g.now, cloud.acts)
  {
    hide Run, Init;
    ClockOfRun(cloud.cfg, cloud.origin, cloud.acts);
  }

  /** Whatever `b` asks for, `a` asks for no later. */
  predicate NoLater(a: Option<Time>, b: Option<Time>) {
    b.Some? ==> a.Some? && a.value <= b.value
  }

  lemma NoLaterNow(a: Option<Time>)
    ensures NoLater(a, a)
  {
  }

  lemma EarlierNoLater(next: Option<Time>, deadline: Option<Time>, first: Option<Time>)
    requires NoLater(next, first)
    ensures NoLater(Earlier(next, deadline), first)
  {
  }

  function Delay(clean: bool): Time {
    if clean then TEARDOWN_POLL_DELAY else RECONCILE_RETRY_DELAY
  }

  // ----- The pass of one runner -----

  /** One runner's pass: the stretch of history it took, from when to when, the time its
      window was judged at, the deadline it asked for, and whether every call succeeded. */
  datatype Pass = Pass(from: nat, to: nat, begun: Time, at: Time, ended: Time, deadline: Option<Time>, clean: bool)

  /** What the pass made of the runner, and by when it must be driven again. */
  predicate Outcome(v: View, w: View, p: Pass) {
    if v.teardown.None? then w == v && p.deadline.None? && p.clean
    else
      && Due(w, p.deadline, p.ended, p.clean)
      && if p.clean then w == IdealPass(v, p.at) else Stuck(v, w, p.at)
  }

  /** The controller acts on the runner. */
  predicate Steers(a: Action, n: Name) {
    !IsEnv(a) && !a.Cycle? && a.n == n
  }

  /** The stretch holds all the controller did about the runner since `start`, and nothing
      about any other; the pass began and ended when the stretch did. */
  ghost predicate Within(acts: seq<Action>, start: nat, t0: Time, n: Name, p: Pass) {
    && start <= p.from <= p.to <= |acts|
    && (forall k :: start <= k < |acts| && Steers(acts[k], n) ==> p.from <= k < p.to)
    && (forall k :: p.from <= k < p.to ==> Of(acts[k], n))
    && p.begun == ClockAfter(t0, acts[..p.from]) && p.ended == ClockAfter(t0, acts[..p.to])
  }

  /** An instance left to stop was told to in the course of the pass. */
  ghost predicate Told(acts: seq<Action>, n: Name, v: View, w: View, p: Pass) {
    p.clean && v.teardown.Some? && MustStop(v) && InPhase(Some(w), Deprovisioning) ==>
      p.from <= p.to <= |acts| && ToldToStop(acts[..p.from], acts[..p.to], n)
  }

  predicate InTime(p: Pass, t1: Time, t2: Time) {
    t1 <= p.begun <= p.at <= p.ended <= t2
  }

  /** Every runner went through its own pass between two times. */
  ghost predicate Drives(vs: map<Name, View>, ws: map<Name, View>, own: map<Name, Pass>, t1: Time, t2: Time) {
    && ws.Keys == vs.Keys == own.Keys
    && forall n :: n in vs ==> Outcome(vs[n], ws[n], own[n]) && InTime(own[n], t1, t2)
  }

  /** Each pass is a stretch of its own of the history. */
  ghost predicate Anchored(vs: map<Name, View>, ws: map<Name, View>, own: map<Name, Pass>,
                           acts: seq<Action>, start: nat, t0: Time)
  {
    forall n :: n in vs && n in ws && n in own ==>
            Within(acts, start, t0, n, own[n]) && Told(acts, n, vs[n], ws[n], own[n])
  }

  /** The deadline is no later than any runner's own. */
  ghost predicate NoLaterThanAny(next: Option<Time>, own: map<Name, Pass>) {
    forall n :: n in own ==> NoLater(next, own[n].deadline)
  }

  /** The deadline is the first one, or one of a pass. */
  ghost predicate OneOf(next: Option<Time>, first: Option<Time>, own: map<Name, Pass>) {
    next == first || exists n :: n in own && next == own[n].deadline
  }

  lemma OneOfNone(first: Option<Time>)
    ensures OneOf(first, first, map[])
  {
  }

  lemma StillOneOf(next: Option<Time>, first: Option<Time>, own: map<Name, Pass>, n: Name, p: Pass)
    requires OneOf(next, first, own) && n !in own
    ensures OneOf(Earlier(next, p.deadline), first, own[n := p])
  {
    var more := own[n := p];
    if Earlier(next, p.deadline) == next {
      if next != first {
        var m :| m in own && next == own[m].deadline;
        assert m in more && next == more[m].deadline;
      }
    } else {
      assert n in more && Earlier(next, p.deadline) == more[n].deadline;
    }
  }

  ghost function Unclean(own: map<Name, Pass>): set<Name> {
    set n | n in own && !own[n].clean
  }

  ghost predicate AllClean(own: map<Name, Pass>) {
    forall n :: n in own ==> own[n].clean
  }

  // ----- Runner after runner -----

  ghost predicate DrivenSoFar(vs: map<Name, View>, ws: map<Name, View>, own: map<Name, Pass>, remaining: set<Name>,
                              acts: seq<Action>, start: nat, t0: Time, t1: Time, t2: Time)
  {
    && ws.Keys == vs.Keys && own.Keys == vs.Keys - remaining && start <= |acts|
    && (forall n :: n in vs && n in remaining ==> ws[n] == vs[n])
    && (forall n, k :: n in remaining && start <= k < |acts| ==> !Steers(acts[k], n))
    && forall n :: n in own ==>
         && Outcome(vs[n], ws[n], own[n]) && InTime(own[n], t1, t2)
         && Within(acts, start, t0, n, own[n]) && Told(acts, n, vs[n], ws[n], own[n])
  }

  lemma DriveStarts(vs: map<Name, View>, acts: seq<Action>, t0: Time, t: Time)
    ensures DrivenSoFar(vs, vs, map[], vs.Keys, acts, |acts|, t0, t, t)
  {
  }

  /** A pass stays what it was while others are driven. */
  lemma PassStays(acts: seq<Action>, more: seq<Action>, start: nat, t0: Time, n: Name, m: Name, v: View, w: View,
          p: Pass)
    requires GrewFor(acts, more, m) && m != n
    requires Within(acts, start, t0, n, p) && Told(acts, n, v, w, p)
    ensures Within(more, start, t0, n, p) && Told(more, n, v, w, p)
  {
    assert more[..p.from] == acts[..p.from] && more[..p.to] == acts[..p.to];
    forall k | |acts| <= k < |more| ensures !Steers(more[k], n) {
      assert Of(more[k], m);
    }
    assert forall k :: 0 <= k < |acts| ==> more[k] == acts[k];
    forall k | p.from <= k < p.to ensures Of(more[k], n) {
      assert more[k] == acts[k];
    }
  }

  lemma PassHere(acts: seq<Action>, more: seq<Action>, start: nat, t0: Time, n: Name, v: View, w: View, p: Pass)
    requires GrewFor(acts, more, n) && start <= |acts|
    requires forall k :: start <= k < |acts| ==> !Steers(acts[k], n)
    requires p.from == |acts| && p.to == |more|
    requires p.begun == ClockAfter(t0, acts) && p.ended == ClockAfter(t0, more)
    requires p.clean && v.teardown.Some? && MustStop(v) && InPhase(Some(w), Deprovisioning) ==>
            ToldToStop(acts, more, n)
    ensures Within(more, start, t0, n, p) && Told(more, n, v, w, p)
  {
    assert more[..|acts|] == acts && more[..|more|] == more;
    assert forall k :: 0 <= k < |acts| ==> more[k] == acts[k];
  }

  lemma DriveStep(vs: map<Name, View>, mid: map<Name, View>, ws: map<Name, View>, own: map<Name, Pass>,
                  remaining: set<Name>, n: Name, p: Pass, acts: seq<Action>, more: seq<Action>, start: nat,
                  t0: Time, t1: Time, t2: Time, now: Time)
    requires DrivenSoFar(vs, mid, own, remaining, acts, start, t0, t1, t2) && n in remaining && n in vs && n in ws
    requires ws == mid[n := ws[n]] && GrewFor(acts, more, n) && t1 <= t2
    requires Outcome(vs[n], ws[n], p) && InTime(p, t2, now)
    requires p.from == |acts| && p.to == |more| && p.begun == ClockAfter(t0, acts) && p.ended == ClockAfter(t0, more)
    requires p.clean && vs[n].teardown.Some? && MustStop(vs[n]) && InPhase(Some(ws[n]), Deprovisioning) ==>
               ToldToStop(acts, more, n)
    ensures DrivenSoFar(vs, ws, own[n := p], remaining - {n}, more, start, t0, t1, now)
  {
    hide Outcome, Within, Told, MustStop, ToldToStop, ClockAfter;
    forall m, k | m in remaining - {n} && start <= k < |more| ensures !Steers(more[k], m) {
      if k >= |acts| {
        assert Of(more[k], n);
      } else {
        assert more[k] == acts[k];
      }
    }
    var owns := own[n := p];
    forall m | m in owns
      ensures Outcome(vs[m], ws[m], owns[m]) && InTime(owns[m], t1, now)
      ensures Within(more, start, t0, m, owns[m]) && Told(more, m, vs[m], ws[m], owns[m])
    {
      if m == n {
        PassHere(acts, more, start, t0, n, vs[n], ws[n], p);
      } else {
        PassStays(acts, more, start, t0, m, n, vs[m], ws[m], own[m]);
      }
    }
  }

  lemma DrivenAll(vs: map<Name, View>, ws: map<Name, View>, own: map<Name, Pass>,
                  acts: seq<Action>, start: nat, t0: Time, t1: Time, t2: Time)
    requires DrivenSoFar(vs, ws, own, {}, acts, start, t0, t1, t2)
    ensures Drives(vs, ws, own, t1, t2) && Anchored(vs, ws, own, acts, start, t0)
  {
    assert own.Keys == vs.Keys;
  }

  lemma Undriven(vs: map<Name, View>, ws: map<Name, View>, own: map<Name, Pass>, remaining: set<Name>,
                 acts: seq<Action>, start: nat, t0: Time, t1: Time, t2: Time, n: Name)
    requires DrivenSoFar(vs, ws, own, remaining, acts, start, t0, t1, t2) && n in remaining && n in vs
    ensures n in ws && ws[n] == vs[n] && n !in own
  {
  }

  lemma StillNoLater(next: Option<Time>, own: map<Name, Pass>, n: Name, p: Pass)
    requires NoLaterThanAny(next, own)
    ensures NoLaterThanAny(Earlier(next, p.deadline), own[n := p])
  {
  }

  lemma OneMoreUnclean(own: map<Name, Pass>, n: Name, p: Pass)
    requires n !in own
    ensures |Unclean(own[n := p])| == |Unclean(own)| + if p.clean then 0 else 1
  {
    if p.clean {
      assert Unclean(own[n := p]) == Unclean(own);
    } else {
      assert Unclean(own[n := p]) == Unclean(own) + {n};
    }
  }

  /** Drives one runner's teardown, if it has one. */
  method DriveOne(cloud: Cloud, st: ReconcileState, r: Runner) returns (deadline: Option<Time>, ghost p: Pass)
    requires Wired(cloud, st) && Tracks(st, r) && cloud.sys.g.stage == Act
    modifies r, r.teardown, cloud
    ensures Wired(cloud, st) && cloud.sys.g.stage == Act && OnwardFor(cloud, r.name)
    ensures st.Views() == old(st.Views())[r.name := r.Val()]
    ensures p.from == |old(cloud.acts)| && p.to == |cloud.acts| && p.begun == old(cloud.now) && p.ended == cloud.now
    ensures p.deadline == deadline && InTime(p, old(cloud.now), cloud.now)
    ensures Outcome(old(r.Val()), r.Val(), p)
    ensures !p.clean ==> old(cloud.trouble) < cloud.trouble
    ensures p.clean && old(r.Val()).teardown.Some? && MustStop(old(r.Val())) &&
            InPhase(Some(r.Val()), Deprovisioning) ==>
              ToldToStop(old(cloud.acts), cloud.acts, r.name)
  {
    hide Run, Init, IdealPass, Due, Stuck, MustStop, ToldToStop, GrewFor;
    assert st.Filed(r.name);
    ghost var t, clean;
    deadline, t, clean := Teardowns.Teardown(cloud, st, r);
    assert st.Filed(r.name);
    OthersSame(st, r);
    p := Pass(|old(cloud.acts)|, |cloud.acts|, old(cloud.now), t, cloud.now, deadline, clean);
    if old(r.Val()).teardown.Some? && clean {
      IdealWaits(old(r.Val()), t);
    }
    if old(r.Val()).teardown.None? {
      DueNone(r.Val(), deadline, cloud.now, clean);
    }
  }

  lemma IdealWaits(v: View, t: Time)
    requires v.teardown.Some?
    ensures Waits(v, t) ==> IdealPass(v, t) == v && !InPhase(Some(v), Deprovisioning)
  {
  }

  lemma DueNone(v: View, deadline: Option<Time>, now: Time, clean: bool)
    requires Due(v, deadline, now, clean) && v.teardown.None?
    ensures deadline.None?
  {
  }

  /** Drives every teardown once, in any order: each runner goes through a pass of its own,
      the deadline returned is no later than any runner's, and as many calls failed as
      passes did not go clean. */
  method DriveTeardowns(cloud: Cloud, st: ReconcileState, first: Option<Time>)
    returns (next: Option<Time>, ghost own: map<Name, Pass>)
    requires Wired(cloud, st) && cloud.sys.g.stage == Act
    modifies st.repr, cloud
    ensures Wired(cloud, st) && cloud.sys.g.stage == Act && Onward(cloud)
    ensures fresh(st.repr - old(st.repr))
    ensures st.desiredRunnerCount == old(st.desiredRunnerCount) && st.lastGitHubAudit == old(st.lastGitHubAudit)
    ensures Drives(old(st.Views()), st.Views(), own, old(cloud.now), cloud.now)
    ensures Anchored(old(st.Views()), st.Views(), own, cloud.acts, |old(cloud.acts)|, cloud.origin.g.now)
    ensures NoLater(next, first) && NoLaterThanAny(next, own) && OneOf(next, first, own)
    ensures old(cloud.trouble) + |Unclean(own)| <= cloud.trouble
  {
    hide Run, Init, Wired, Grew, GrewFor, DrivenSoFar, Outcome, InTime;
    hide MustStop, ToldToStop, Earlier, NoLater, NoLaterThanAny, OneOf, Unclean, ClockAfter;
    Unwire(cloud, st);
    GrewNone(cloud.acts);
    next, own := first, map[];
    NoLaterNow(first);
    OneOfNone(first);
    NoneUnclean(next);
    ghost var vs, start, t0 := st.Views(), |cloud.acts|, cloud.origin.g.now;
    var remaining := st.runners.Keys;
    assert vs.Keys == remaining;
    DriveStarts(vs, cloud.acts, t0, cloud.now);
    while remaining != {}
      invariant Wired(cloud, st) && cloud.sys.g.stage == Act && Onward(cloud)
      invariant st.Valid() && cloud.Valid() && cloud !in st.repr
      invariant st.repr == old(st.repr)
      invariant st.desiredRunnerCount == old(st.desiredRunnerCount) && st.lastGitHubAudit == old(st.lastGitHubAudit)
      invariant remaining <= st.runners.Keys == vs.Keys
      invariant DrivenSoFar(vs, st.Views(), own, remaining, cloud.acts, start, t0, old(cloud.now), cloud.now)
      invariant NoLater(next, first) && NoLaterThanAny(next, own) && OneOf(next, first, own)
      invariant old(cloud.trouble) + |Unclean(own)| <= cloud.trouble
    {
      var n :| n in remaining;
      assert st.Filed(n);
      ghost var mid, acts, t2 := st.Views(), cloud.acts, cloud.now;
      Undriven(vs, mid, own, remaining, acts, start, t0, old(cloud.now), t2, n);
      ClockNow(cloud);
      ghost var p;
      var deadline;
      deadline, p := DriveOne(cloud, st, st.runners[n]);
      GrewOn(old(cloud.acts), acts, cloud.acts);
      Unwire(cloud, st);
      ClockNow(cloud);
      DriveStep(vs, mid, st.Views(), own, remaining, n, p, acts, cloud.acts, start, t0, old(cloud.now), t2, cloud.now);
      EarlierNoLater(next, deadline, first);
      StillNoLater(next, own, n, p);
      StillOneOf(next, first, own, n, p);
      OneMoreUnclean(own, n, p);
      next, own := Earlier(next, deadline), own[n := p];
      remaining := remaining - {n};
    }
    DrivenAll(vs, st.Views(), own, cloud.acts, start, t0, old(cloud.now), cloud.now);
  }

  lemma NoneUnclean(next: Option<Time>)
    ensures NoLaterThanAny(next, map[]) && Unclean(map[]) == {}
  {
  }

  lemma CleanWhenNone(own: map<Name, Pass>)
    requires |Unclean(own)| == 0
    ensures AllClean(own)
  {
    forall n | n in own ensures own[n].clean {
      assert n !in Unclean(own);
    }
  }
}
