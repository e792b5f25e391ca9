/** Moving the number of active runners towards the target without crossing it. */
module Capacity {
  import opened Types
  import opened Protocol
  import opened System
  import opened Clouds
  import opened Runners
  import opened Teardowns
  import opened Marking
  import opened Ordering

  // ----- Reclaiming -----

  ghost function ReclaimableSet(vs: map<Name, View>, t: Time): set<Name> {
    set n | n in vs && Reclaimable(vs[n], t)
  }

  /** The views once the teardowns of `back` are gone. */
  ghost function Reactivated(vs: map<Name, View>, back: set<Name>): map<Name, View> {
    map n | n in vs :: if n in back then vs[n].(teardown := None) else vs[n]
  }

  lemma ReactivatedCount(vs: map<Name, View>, back: set<Name>, t: Time)
    requires back <= ReclaimableSet(vs, t)
    ensures |ActiveSet(Reactivated(vs, back))| == |ActiveSet(vs)| + |back|
  {
    assert ActiveSet(Reactivated(vs, back)) == ActiveSet(vs) + back;
    assert ActiveSet(vs) !! back;
  }

  method ReclaimOne(cloud: Cloud, st: ReconcileState, r: Runner, now: Time)
    requires Wired(cloud, st) && Tracks(st, r) && cloud.sys.g.stage == Plan
    requires now <= cloud.now && Reclaimable(r.Val(), now)
    modifies r`teardown, cloud
    ensures Wired(cloud, st) && cloud.sys.g == old(cloud.sys).g && Onward(cloud) && cloud.now == old(cloud.now)
    ensures st.Views() == old(st.Views())[r.name := old(r.Val()).(teardown := None)]
  {
    hide Run, Init;
    Seen(cloud, st, r);
    cloud.Resolve(r.name, Reclaim(now));
    r.teardown := null;
    OthersSame(st, r);
    Recoupled(cloud, st, r.name, r.Val());
  }

  method TryReclaim(cloud: Cloud, st: ReconcileState, r: Runner, now: Time) returns (done: bool)
    requires Wired(cloud, st) && Tracks(st, r) && cloud.sys.g.stage == Plan && now <= cloud.now
    modifies r`teardown, cloud
    ensures Wired(cloud, st) && cloud.sys.g == old(cloud.sys).g && Onward(cloud) && cloud.now == old(cloud.now)
    ensures done <==> Reclaimable(old(r.Val()), now)
    ensures st.repr == old(st.repr) && unchanged(st)
    ensures st.Views() == if done then old(st.Views())[r.name := old(r.Val()).(teardown := None)] else old(st.Views())
  {
    hide Run, Init;
    done := r.instance.Some? && !InstanceHalted(r.instance.value.runState) && r.teardown != null &&
      r.teardown.policy == Cancelable && r.teardown.phase == Window &&
      r.teardown.removalAfter.Some? && now < r.teardown.removalAfter.value;
    if done {
      ReclaimOne(cloud, st, r, now);
    }
  }

  /** Visiting one more runner while reclaiming. */
  lemma ReclaimStep(vs: map<Name, View>, back: set<Name>, n: Name, t: Time, remaining: set<Name>)
    requires n in remaining && n in vs && back == ReclaimableSet(vs, t) - remaining
    ensures Reactivated(vs, back)[n] == vs[n]
    ensures Reclaimable(vs[n], t) ==>
      && back + {n} == ReclaimableSet(vs, t) - (remaining - {n}) && |back + {n}| == |back| + 1
      && Reactivated(vs, back + {n}) == Reactivated(vs, back)[n := vs[n].(teardown := None)]
    ensures !Reclaimable(vs[n], t) ==> back == ReclaimableSet(vs, t) - (remaining - {n})
  {
  }

  /** Where reclaiming stands: `back` are those visited that could be taken back. */
  ghost predicate Reclaiming(st: ReconcileState, vs: map<Name, View>, t: Time, back: set<Name>, remaining: set<Name>)
    reads st, st.repr
  {
    st.Valid() && remaining <= st.runners.Keys && vs.Keys == st.runners.Keys &&
    back == ReclaimableSet(vs, t) - remaining && st.Views() == Reactivated(vs, back)
  }

  method VisitForReclaim(cloud: Cloud, st: ReconcileState, n: Name, now: Time,
                         ghost vs: map<Name, View>, ghost back: set<Name>, ghost remaining: set<Name>)
    returns (done: bool)
    requires Wired(cloud, st) && cloud.sys.g.stage == Plan && now <= cloud.now
    requires Reclaiming(st, vs, now, back, remaining) && n in remaining
    modifies st.repr, cloud
    ensures Wired(cloud, st) && cloud.sys.g.stage == Plan && Onward(cloud) && Steady(st)
    ensures Reclaiming(st, vs, now, if done then back + {n} else back, remaining - {n})
    ensures done ==> |back + {n}| == |back| + 1
  {
    hide Run, Init, Reclaimable, ReclaimableSet, Reactivated;
    assert st.Filed(n) && st.Views()[n] == st.runners[n].Val();
    ReclaimStep(vs, back, n, now, remaining);
    done := TryReclaim(cloud, st, st.runners[n], now);
  }

  /** Takes back up to `requested` runners whose window is still open: exactly as many
      as there are, or as are asked for, whatever the order they are visited in. */
  method CancelPendingScaleDowns(cloud: Cloud, st: ReconcileState, requested: int)
    returns (ghost back: set<Name>, ghost t: Time)
    requires Wired(cloud, st) && cloud.sys.g.stage == Plan && 0 <= requested
    modifies st.repr, cloud
    ensures Wired(cloud, st) && cloud.sys.g.stage == Plan && Onward(cloud) && Steady(st)
    ensures old(cloud.now) <= t <= cloud.now
    ensures back <= ReclaimableSet(old(st.Views()), t)
    ensures |back| == Min(requested, |ReclaimableSet(old(st.Views()), t)|)
    ensures st.Views() == Reactivated(old(st.Views()), back)
  {
    hide Run, Init, Wired, Reclaiming, Reactivated, ReclaimableSet, Reclaimable, Grew;
    Unwire(cloud, st);
    ghost var vs := st.Views();
    var now := Clock(cloud, st);
    t, back := now, {};
    var left := requested;
    var remaining := st.runners.Keys;
    StartReclaiming(cloud, st, t);
    while remaining != {} && left > 0
      invariant Wired(cloud, st) && cloud.sys.g.stage == Plan && Onward(cloud) && Steady(st) && t <= cloud.now
      invariant Reclaiming(st, vs, t, back, remaining)
      invariant 0 <= left && |back| + left == requested
    {
      var n :| n in remaining;
      ghost var acts := cloud.acts;
      var done := VisitForReclaim(cloud, st, n, now, vs, back, remaining);
      GrewOn(old(cloud.acts), acts, cloud.acts);
      remaining := remaining - {n};
      if done {
        left := left - 1;
        back := back + {n};
      }
    }
    ReclaimDone(st, vs, back, t, remaining, requested);
  }

  lemma StartReclaiming(cloud: Cloud, st: ReconcileState, t: Time)
    requires Wired(cloud, st)
    ensures Reclaiming(st, st.Views(), t, {}, st.runners.Keys)
  {
    hide Run, Init, Reclaimable;
  }

  lemma ReclaimDone(st: ReconcileState, vs: map<Name, View>, back: set<Name>, t: Time, remaining: set<Name>,
          requested: int)
    requires Reclaiming(st, vs, t, back, remaining)
    requires |back| <= requested && (remaining == {} || |back| == requested)
    ensures back <= ReclaimableSet(vs, t) && |back| == Min(requested, |ReclaimableSet(vs, t)|)
    ensures st.Views() == Reactivated(vs, back)
  {
    hide Reclaimable;
    SubsetSize(back, ReclaimableSet(vs, t));
    if remaining == {} {
      assert back == ReclaimableSet(vs, t);
    }
  }

  method Clock(cloud: Cloud, st: ReconcileState) returns (t: Time)
    requires Wired(cloud, st)
    modifies cloud
    ensures Wired(cloud, st) && cloud.sys.g.stage == old(cloud.sys).g.stage && Onward(cloud) && t == cloud.now
  {
    hide Run, Init;
    t := cloud.Now();
  }

  // ----- Scaling down -----

  /** What scale-down has gathered: no one it should not, no one twice, no one left out. */
  ghost predicate Gathered(vs: map<Name, View>, xs: seq<Spare>, visited: set<Name>, t0: Time, t1: Time) {
    && Distinct(xs)
    && (forall i :: 0 <= i < |xs| ==>
          xs[i].name in visited && xs[i].name in vs && Candidate(vs[xs[i].name], t1) &&
          xs[i].created == vs[xs[i].name].instance.value.created)
    && (forall n :: n in vs && n in visited && Candidate(vs[n], t0) ==> n in Names(xs))
  }

  lemma GatherOne(vs: map<Name, View>, xs: seq<Spare>, visited: set<Name>, n: Name, t0: Time, t1: Time, t2: Time,
          due: bool)
    requires Gathered(vs, xs, visited, t0, t1) && n in vs && n !in visited && t0 <= t1 <= t2
    requires due ==> Candidate(vs[n], t2)
    requires Candidate(vs[n], t1) ==> due
    ensures Gathered(vs, if due then xs + [Spare(n, vs[n].instance.value.created)] else xs, visited + {n}, t0, t2)
  {
    if due {
      var ys := xs + [Spare(n, vs[n].instance.value.created)];
      assert Names(ys) == Names(xs) + {n} by {
        assert ys[|xs|].name == n;
        forall i | 0 <= i < |xs| ensures ys[i].name in Names(ys) && ys[i] == xs[i] {}
      }
    }
  }

  method IsCandidate(cloud: Cloud, st: ReconcileState, r: Runner) returns (due: bool)
    requires Wired(cloud, st) && Tracks(st, r)
    modifies cloud
    ensures Wired(cloud, st) && cloud.sys.g.stage == old(cloud.sys).g.stage && Onward(cloud)
    ensures due ==> Candidate(r.Val(), cloud.now)
    ensures Candidate(r.Val(), old(cloud.now)) ==> due
  {
    hide Run, Init;
    Seen(cloud, st, r);
    if r.instance.None? || r.busy || r.teardown != null || InstanceHalted(r.instance.value.runState) {
      return false;
    }
    var now := cloud.Now();
    due := PastGrace(r.instance.value.created, now);
  }

  method GatherCandidates(cloud: Cloud, st: ReconcileState) returns (xs: seq<Spare>)
    requires Wired(cloud, st) && cloud.sys.g.stage == Scale
    modifies cloud
    ensures Wired(cloud, st) && cloud.sys.g.stage == Scale && Onward(cloud)
    ensures Gathered(st.Views(), xs, st.runners.Keys, old(cloud.now), cloud.now)
  {
    hide Run, Init, Wired, Grew, Gathered, Candidate;
    Unwire(cloud, st);
    GrewNone(cloud.acts);
    xs := [];
    var remaining := st.runners.Keys;
    GatherNone(st.Views(), cloud.now);
    assert st.runners.Keys - remaining == {};
    while remaining != {}
      invariant Wired(cloud, st) && cloud.sys.g.stage == Scale && Onward(cloud)
      invariant st.Valid() && cloud !in st.repr && remaining <= st.runners.Keys
      invariant Gathered(st.Views(), xs, st.runners.Keys - remaining, old(cloud.now), cloud.now)
    {
      var n :| n in remaining;
      assert st.Filed(n);
      var r := st.runners[n];
      ghost var acts, t1 := cloud.acts, cloud.now;
      var due := IsCandidate(cloud, st, r);
      GrewOn(old(cloud.acts), acts, cloud.acts);
      Unwire(cloud, st);
      GatherOne(st.Views(), xs, st.runners.Keys - remaining, n, old(cloud.now), t1, cloud.now, due);
      assert st.runners.Keys - (remaining - {n}) == (st.runners.Keys - remaining) + {n};
      remaining := remaining - {n};
      if due {
        HasInstance(r.Val(), cloud.now);
        xs := xs + [Spare(n, r.instance.value.created)];
      }
    }
    assert st.runners.Keys - {} == st.runners.Keys;
  }

  lemma HasInstance(v: View, t: Time)
    requires Candidate(v, t)
    ensures v.instance.Some?
  {
  }

  lemma GatherNone(vs: map<Name, View>, t: Time)
    ensures Gathered(vs, [], {}, t, t)
  {
  }

  /** The runner is idle no more: its teardown waits for the window that opened in between. */
  predicate InWindow(v: View, w: View, t0: Time, t1: Time) {
    && w.teardown.Some? && w == v.(teardown := w.teardown)
    && w.teardown.value.policy == Cancelable && w.teardown.value.phase == Window
    && w.teardown.value.removalAfter.Some?
    && t0 + SCALE_DOWN_CANCELLATION_DELAY <= w.teardown.value.removalAfter.value <= t1 + SCALE_DOWN_CANCELLATION_DELAY
  }

  lemma ScaleDownEffect(now: Time, t: Time, l: Local)
    requires t <= now && l.view.Some? && Candidate(l.view.value, t)
    ensures DecideMay(now, ScaleDown(t), l)
    ensures DecideEffect(now, ScaleDown(t), l).view == Some(Marked(l.view.value, Cancelable, t))
  {
  }

  lemma OpensWindow(v: View, t0: Time, t: Time, t1: Time)
    requires v.teardown.None? && t0 <= t <= t1
    ensures InWindow(v, Marked(v, Cancelable, t), t0, t1)
  {
  }

  lemma StillCandidate(v: View, t0: Time, t: Time)
    requires Candidate(v, t0) && t0 <= t
    ensures Candidate(v, t) && v.teardown.None?
  {
  }

  method OpenWindow(cloud: Cloud, st: ReconcileState, r: Runner) returns (t: Time)
    requires cloud.Valid() && st.Valid() && cloud !in st.repr && Tracks(st, r) && r.teardown == null
    modifies st`repr, r`teardown, cloud
    ensures cloud.Valid() && EnvOnly(old(cloud.sys), cloud.sys) && Onward(cloud) && old(cloud.now) <= t <= cloud.now
    ensures st.Valid() && cloud !in st.repr && Steady(st) && r.teardown != null
    ensures r.Val() == Marked(old(r.Val()), Cancelable, t) && InWindow(old(r.Val()), r.Val(), old(cloud.now), cloud.now)
    ensures st.Views() == old(st.Views())[r.name := r.Val()]
  {
    hide Run, Init, Marked, InWindow;
    t := MarkForTeardown(cloud, st, r, Cancelable);
    OpensWindow(old(r.Val()), old(cloud.now), t, cloud.now);
  }

  method ScaleDownOne(cloud: Cloud, st: ReconcileState, r: Runner) returns (deadline: Option<Time>)
    requires Wired(cloud, st) && Tracks(st, r) && cloud.sys.g.stage == Scale && Candidate(r.Val(), cloud.now)
    modifies st`repr, r`teardown, cloud
    ensures Wired(cloud, st) && cloud.sys.g.stage == Scale && Onward(cloud) && Steady(st)
    ensures InWindow(old(r.Val()), r.Val(), old(cloud.now), cloud.now)
    ensures deadline == r.Val().teardown.value.removalAfter
    ensures st.Views() == old(st.Views())[r.name := r.Val()]
  {
    hide Run, Init, DecideEffect, DecideMay, Marked, InWindow, Candidate;
    Seen(cloud, st, r);
    ghost var v, t0 := r.Val(), cloud.now;
    StillCandidate(v, t0, t0);
    var t := OpenWindow(cloud, st, r);
    StillCandidate(v, t0, t);
    ScaleDownEffect(cloud.now, t, At(cloud.sys, r.name));
    cloud.Resolve(r.name, ScaleDown(t));
    Recoupled(cloud, st, r.name, r.Val());
    deadline := r.teardown.removalAfter;
  }

  /** The first `k` of `ys` are given up, nobody else changed, and `next` is no later
      than any of their windows. */
  ghost predicate GivenUp(vs: map<Name, View>, ws: map<Name, View>, ys: seq<Spare>, k: nat,
                          t0: Time, t1: Time, next: Option<Time>)
    requires k <= |ys|
  {
    && ws.Keys == vs.Keys
    && (forall n :: n in vs ==>
          if n in Names(ys[..k])
          then InWindow(vs[n], ws[n], t0, t1) && next.Some? && next.value <= ws[n].teardown.value.removalAfter.value
          else ws[n] == vs[n])
    && (next.Some? ==> exists i :: 0 <= i < k && ys[i].name in ws && next == Closing(ws[ys[i].name]))
  }

  /** When the window of a runner closes. */
  function Closing(v: View): Option<Time> {
    if v.teardown.Some? then v.teardown.value.removalAfter else None
  }

  function Earlier(a: Option<Time>, b: Option<Time>): Option<Time> {
    if a.None? then b else if b.Some? && b.value < a.value then b else a
  }

  lemma NotBefore(ys: seq<Spare>, k: nat)
    requires k < |ys| && Distinct(ys)
    ensures ys[k].name !in Names(ys[..k])
  {
    forall i | 0 <= i < k ensures ys[..k][i].name != ys[k].name {
      assert ys[..k][i] == ys[i];
    }
  }

  lemma GiveUpOne(vs: map<Name, View>, mid: map<Name, View>, ws: map<Name, View>, ys: seq<Spare>, k: nat,
                  t0: Time, t1: Time, t2: Time, next: Option<Time>, deadline: Option<Time>)
    requires k < |ys| && GivenUp(vs, mid, ys, k, t0, t1, next) && Distinct(ys) && t0 <= t1 <= t2
    requires ys[k].name in vs && ys[k].name in ws && ws == mid[ys[k].name := ws[ys[k].name]]
    requires InWindow(mid[ys[k].name], ws[ys[k].name], t1, t2)
    requires deadline == ws[ys[k].name].teardown.value.removalAfter
    ensures GivenUp(vs, ws, ys, k + 1, t0, t2, Earlier(next, deadline))
  {
    var n := ys[k].name;
    assert ys[..k + 1] == ys[..k] + [ys[k]];
    assert Names(ys[..k + 1]) == Names(ys[..k]) + {n} by {
      assert ys[..k + 1][k].name == n;
      forall i | 0 <= i < k ensures ys[..k][i].name in Names(ys[..k + 1]) {
        assert ys[..k + 1][i] == ys[..k][i];
      }
    }
    NotBefore(ys, k);
    assert mid[n] == vs[n];
  }

  lemma GivenNone(vs: map<Name, View>, ys: seq<Spare>, t0: Time, t1: Time)
    ensures GivenUp(vs, vs, ys, 0, t0, t1, None)
  {
    assert ys[..0] == [];
  }

  lemma StillIdle(vs: map<Name, View>, ws: map<Name, View>, xs: seq<Spare>, ys: seq<Spare>, k: nat,
                  t0: Time, t1: Time, t2: Time, next: Option<Time>)
    requires k < |ys| && multiset(ys) == multiset(xs) && Distinct(ys)
    requires Gathered(vs, xs, vs.Keys, t0, t1) && t1 <= t2 && GivenUp(vs, ws, ys, k, t1, t2, next)
    ensures ys[k].name in vs && ws[ys[k].name] == vs[ys[k].name] && Candidate(ws[ys[k].name], t2)
  {
    SameNames(ys, xs);
    assert ys[k] in xs;
    var i :| 0 <= i < |xs| && xs[i] == ys[k];
    NotBefore(ys, k);
  }

  ghost function CandidateSet(vs: map<Name, View>, t: Time): set<Name> {
    set n | n in vs && Candidate(vs[n], t)
  }

  /** The effect of a scale-down: who was picked, out of whom, and when to come back. */
  ghost predicate ScaledDown(vs: map<Name, View>, ws: map<Name, View>, cands: set<Name>, picked: set<Name>,
                             t0: Time, t1: Time, next: Option<Time>)
  {
    && ws.Keys == vs.Keys && picked <= cands
    && CandidateSet(vs, t0) <= cands <= CandidateSet(vs, t1)
    && (forall n :: n in vs ==>
          if n in picked
          then InWindow(vs[n], ws[n], t0, t1) && next.Some? && next.value <= ws[n].teardown.value.removalAfter.value
          else ws[n] == vs[n])
    && (next.Some? ==> exists n :: n in picked && n in ws && next == Closing(ws[n]))
  }

  function Created(v: View): Option<Time> {
    if v.instance.Some? then v.instance.value.created else None
  }

  /** Nobody kept was created before anybody picked. */
  ghost predicate OldestFirst(vs: map<Name, View>, cands: set<Name>, picked: set<Name>) {
    forall p, q :: p in picked && q in cands - picked && p in vs && q in vs &&
                   Created(vs[p]).Some? && Created(vs[q]).Some? ==>
      Created(vs[p]).value <= Created(vs[q]).value
  }

  ghost function CreatedTimes(vs: map<Name, View>, cands: set<Name>): set<Option<Time>> {
    set n | n in cands && n in vs && vs[n].instance.Some? :: vs[n].instance.value.created
  }

  lemma PrefixName(ys: seq<Spare>, k: nat, j: nat)
    requires j < k <= |ys|
    ensures ys[j].name in Names(ys[..k])
  {
    assert ys[..k][j] == ys[j];
  }

  /** The candidates are runners with an instance, each with its creation time. */
  ghost predicate AgesOf(vs: map<Name, View>, xs: seq<Spare>) {
    forall i :: 0 <= i < |xs| ==>
      xs[i].name in vs && vs[xs[i].name].instance.Some? && xs[i].created == vs[xs[i].name].instance.value.created
  }

  lemma AgesSame(vs: map<Name, View>, xs: seq<Spare>, ys: seq<Spare>)
    requires AgesOf(vs, xs) && multiset(ys) == multiset(xs)
    ensures AgesOf(vs, ys) && Names(ys) == Names(xs) && Times(ys) == Times(xs) == CreatedTimes(vs, Names(xs))
  {
    SameNames(ys, xs);
    forall i | 0 <= i < |ys|
      ensures ys[i].name in vs && vs[ys[i].name].instance.Some? &&
              ys[i].created == vs[ys[i].name].instance.value.created
    {
      assert ys[i] in xs;
      var j :| 0 <= j < |xs| && xs[j] == ys[i];
    }
  }

  lemma PickedOldest(vs: map<Name, View>, ys: seq<Spare>, k: nat)
    requires k <= |ys| && AgesOf(vs, ys) && Ascending(ys)
    ensures OldestFirst(vs, Names(ys), Names(ys[..k]))
  {
    forall p, q | p in Names(ys[..k]) && q in Names(ys) - Names(ys[..k])
      ensures p in vs && q in vs && vs[p].instance.Some? && vs[q].instance.Some? &&
              Compare(vs[p].instance.value.created, vs[q].instance.value.created) <= 0
    {
      var i :| 0 <= i < k && ys[..k][i].name == p;
      assert ys[i].name == p;
      var j :| 0 <= j < |ys| && ys[j].name == q;
      if j < k {
        PrefixName(ys, k, j);
      }
    }
  }

  /** Giving up `k` of the candidates, met in the order `ys`, gives up the oldest. */
  ghost predicate GivesUpOldest(vs: map<Name, View>, ys: seq<Spare>, k: nat) {
    forall zs :: SortResult(ys, zs) && k <= |zs| ==> OldestFirst(vs, Names(ys), Names(zs[..k]))
  }

  /** An arrangement with a newer one among the first `k` than one of the others. */
  lemma NewerBefore(vs: map<Name, View>, ys: seq<Spare>, k: nat, a: nat, b: nat)
    requires Distinct(ys) && AgesOf(vs, ys) && Settled(ys) && a < k <= b < |ys|
    requires Compare(ys[a].created, ys[b].created) > 0
    ensures !GivesUpOldest(vs, ys, k)
  {
    hide SortResult;
    SettledResult(ys);
    PrefixName(ys, k, a);
    assert ys[b].name !in Names(ys[..k]) by {
      forall i | 0 <= i < k ensures ys[..k][i].name != ys[b].name {
        assert ys[..k][i] == ys[i];
      }
    }
    assert ys[a].name in Names(ys[..k]) && ys[b].name in Names(ys) - Names(ys[..k]);
    assert Compare(vs[ys[a].name].instance.value.created, vs[ys[b].name].instance.value.created) > 0;
    assert !OldestFirst(vs, Names(ys), Names(ys[..k]));
  }

  /** Candidates without an order have an arrangement in which the newest with a time is
      among the first `k`, and the oldest is not. */
  lemma SomeNewerGoes(vs: map<Name, View>, xs: seq<Spare>, k: nat) returns (ys: seq<Spare>)
    requires Distinct(xs) && AgesOf(vs, xs) && !Orderly(Times(xs)) && 0 < k < |xs|
    ensures multiset(ys) == multiset(xs) && !GivesUpOldest(vs, ys, k)
  {
    hide Misplaced, Sorted, Orderly, Timed;
    SomeNewer(xs);
    var m := |Sorted(Timed(xs))|;
    var j := if k < m then m - k else 1;
    MisplacedSettled(xs, j);
    ys := Misplaced(xs, j);
    AgesSame(vs, xs, ys);
    DistinctSame(xs, ys);
    NewerBefore(vs, ys, k, m - 1 - j, |ys| - j);
  }

  lemma ResultOldest(vs: map<Name, View>, ys: seq<Spare>, zs: seq<Spare>, k: nat)
    requires AgesOf(vs, ys) && SortResult(ys, zs) && Orderly(Times(ys)) && k <= |zs|
    ensures OldestFirst(vs, Names(ys), Names(zs[..k]))
  {
    hide Orderly, Ascending;
    AgesSame(vs, ys, zs);
    PickedOldest(vs, zs, k);
  }

  /** Scale-down that gives up some of the candidates and keeps others gives up the oldest,
      whatever the order it meets them in and whatever the sort makes of it, if and only if
      all of them have a creation time or those that have one share it. */
  lemma OldestExactlyWhen(vs: map<Name, View>, xs: seq<Spare>, k: nat)
    requires Distinct(xs) && AgesOf(vs, xs) && 0 < k < |xs|
    ensures (forall ys :: multiset(ys) == multiset(xs) ==> GivesUpOldest(vs, ys, k)) <==>
            Orderly(CreatedTimes(vs, Names(xs)))
  {
    hide Orderly, SortResult;
    AgesSame(vs, xs, xs);
    if Orderly(Times(xs)) {
      forall ys, zs | multiset(ys) == multiset(xs) && SortResult(ys, zs) && k <= |zs|
        ensures OldestFirst(vs, Names(ys), Names(zs[..k]))
      {
        AgesSame(vs, xs, ys);
        ResultOldest(vs, ys, zs, k);
      }
    } else {
      var ys := SomeNewerGoes(vs, xs, k);
    }
  }

  /** A fleet of three of which giving up one gives up the newest. */
  lemma NewestGoes(vs: map<Name, View>, zs: seq<Spare>)
    requires AgesOf(vs, NEWEST_FIRST) && SortResult(NEWEST_FIRST, zs)
    ensures |zs| == 3 && Names(zs[..1]) == {"new"}
    ensures !OldestFirst(vs, Names(NEWEST_FIRST), Names(zs[..1]))
  {
    NewestFirst();
    var xs := NEWEST_FIRST;
    assert xs[0].name == "new" && xs[2].name == "old";
    assert xs[2].name in Names(xs) && xs[2].name !in {"new"};
    assert Compare(vs["new"].instance.value.created, vs["old"].instance.value.created) > 0;
  }

  /** The count of active runners falls by as many as were picked. */
  lemma ScaledDownCount(vs: map<Name, View>, ws: map<Name, View>, cands: set<Name>, picked: set<Name>,
                        t0: Time, t1: Time, next: Option<Time>)
    requires ScaledDown(vs, ws, cands, picked, t0, t1, next)
    ensures |ActiveSet(ws)| == |ActiveSet(vs)| - |picked|
  {
    assert picked <= ActiveSet(vs);
    assert ActiveSet(ws) == ActiveSet(vs) - picked;
  }

  lemma ScaleDownDone(vs: map<Name, View>, ws: map<Name, View>, xs: seq<Spare>, ys: seq<Spare>, k: nat,
                      t0: Time, t1: Time, t2: Time, next: Option<Time>)
    requires k <= |ys| && multiset(ys) == multiset(xs) && Distinct(ys) && t0 <= t1 <= t2
    requires Gathered(vs, xs, vs.Keys, t0, t1) && GivenUp(vs, ws, ys, k, t1, t2, next)
    ensures ScaledDown(vs, ws, Names(xs), Names(ys[..k]), t0, t2, next)
    ensures |Names(ys[..k])| == k && |Names(xs)| == |xs|
  {
    SameNames(ys, xs);
    NamesCount(ys[..k]);
    NamesCount(ys);
    forall n | n in Names(ys[..k]) ensures n in Names(ys) {
      var i :| 0 <= i < k && ys[..k][i].name == n;
      assert ys[i].name == n;
    }
  }

  /** The candidates were met in this order, and the first of them once sorted were picked. */
  ghost predicate Chosen(vs: map<Name, View>, cands: set<Name>, picked: set<Name>, order: seq<Spare>) {
    && Distinct(order) && AgesOf(vs, order) && cands == Names(order)
    && exists zs :: SortResult(order, zs) && |picked| <= |zs| && picked == Names(zs[..|picked|])
  }

  lemma ChosenHere(vs: map<Name, View>, xs: seq<Spare>, ys: seq<Spare>, k: nat, t0: Time, t1: Time)
    requires Gathered(vs, xs, vs.Keys, t0, t1) && SortResult(xs, ys) && Distinct(ys) && k <= |ys|
    ensures Chosen(vs, Names(xs), Names(ys[..k]), xs)
  {
    NamesCount(ys[..k]);
    assert AgesOf(vs, xs);
  }

  /** Whoever is chosen from orderly candidates is among the oldest. */
  lemma ChosenOldest(vs: map<Name, View>, cands: set<Name>, picked: set<Name>, order: seq<Spare>)
    requires Chosen(vs, cands, picked, order) && Orderly(CreatedTimes(vs, cands))
    ensures OldestFirst(vs, cands, picked)
  {
    hide Orderly, SortResult;
    var zs :| SortResult(order, zs) && |picked| <= |zs| && picked == Names(zs[..|picked|]);
    AgesSame(vs, order, order);
    ResultOldest(vs, order, zs, |picked|);
  }

  /** Gives up the first `selected` of the candidates, in this order. */
  method GiveUp(cloud: Cloud, st: ReconcileState, ys: seq<Spare>, selected: nat, ghost xs: seq<Spare>, ghost t0: Time)
    returns (next: Option<Time>)
    requires Wired(cloud, st) && cloud.sys.g.stage == Scale && selected <= |ys| && st.Valid()
    requires multiset(ys) == multiset(xs) && Distinct(ys)
    requires Gathered(st.Views(), xs, st.Views().Keys, t0, cloud.now)
    modifies st.repr, cloud
    ensures Wired(cloud, st) && cloud.sys.g.stage == Scale && Onward(cloud) && Steady(st)
    ensures st.Valid() && GivenUp(old(st.Views()), st.Views(), ys, selected, old(cloud.now), cloud.now, next)
  {
    hide Run, Init, Wired, Grew, Gathered, GivenUp, Candidate;
    Unwire(cloud, st);
    GrewNone(cloud.acts);
    ghost var vs, t1 := st.Views(), cloud.now;
    next := None;
    GivenNone(vs, ys, t1, t1);
    var k := 0;
    while k < selected
      invariant 0 <= k <= selected
      invariant Wired(cloud, st) && cloud.sys.g.stage == Scale && Onward(cloud) && Steady(st)
      invariant st.Valid() && vs.Keys == st.runners.Keys && t1 <= cloud.now
      invariant GivenUp(vs, st.Views(), ys, k, t1, cloud.now, next)
    {
      ghost var mid, t2, acts := st.Views(), cloud.now, cloud.acts;
      StillIdle(vs, mid, xs, ys, k, t0, t1, t2, next);
      var n := ys[k].name;
      assert st.Filed(n);
      var deadline := ScaleDownOne(cloud, st, st.runners[n]);
      GrewOn(old(cloud.acts), acts, cloud.acts);
      Unwire(cloud, st);
      GiveUpOne(vs, mid, st.Views(), ys, k, t1, t2, cloud.now, next, deadline);
      next := Earlier(next, deadline);
      k := k + 1;
    }
  }

  /** Marks idle runners until the active count meets the target: exactly as many as are
      in excess, or as there are candidates, and the first of them once sorted. */
  method ScaleDownTo(cloud: Cloud, st: ReconcileState, active: int, target: int)
    returns (next: Option<Time>, ghost cands: set<Name>, ghost picked: set<Name>, ghost order: seq<Spare>)
    requires Wired(cloud, st) && cloud.sys.g.stage == Scale && target <= active
    modifies st.repr, cloud
    ensures Wired(cloud, st) && cloud.sys.g.stage == Scale && Onward(cloud) && Steady(st)
    ensures ScaledDown(old(st.Views()), st.Views(), cands, picked, old(cloud.now), cloud.now, next)
    ensures |picked| == Min(active - target, |cands|)
    ensures Chosen(old(st.Views()), cands, picked, order)
  {
    hide Run, Init, Wired, Grew, Gathered, GivenUp;
    hide ScaledDown, Orderly, Ascending, Chosen, Distinct;
    Unwire(cloud, st);
    ghost var vs := st.Views();
    var xs := GatherCandidates(cloud, st);
    Unwire(cloud, st);
    assert vs.Keys == st.runners.Keys;
    ghost var t1, acts := cloud.now, cloud.acts;
    DistinctGathered(vs, xs, vs.Keys, old(cloud.now), t1);
    var ys := SortFunc(xs);
    DistinctSame(xs, ys);
    SameNames(ys, xs);
    var selected := Min(active - target, |ys|);
    next := GiveUp(cloud, st, ys, selected, xs, old(cloud.now));
    GrewOn(old(cloud.acts), acts, cloud.acts);
    cands, picked, order := Names(xs), Names(ys[..selected]), xs;
    ChosenHere(vs, xs, ys, selected, old(cloud.now), t1);
    ScaleDownDone(vs, st.Views(), xs, ys, selected, old(cloud.now), t1, cloud.now, next);
  }

  lemma DistinctGathered(vs: map<Name, View>, xs: seq<Spare>, visited: set<Name>, t0: Time, t1: Time)
    requires Gathered(vs, xs, visited, t0, t1)
    ensures Distinct(xs)
  {
  }
}
