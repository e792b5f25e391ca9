/** With both limits at zero a fleet is gone within three clean cycles. */
module Drain {
  import opened Types
  import opened Protocol
  import opened Invariant
  import opened System
  import opened Runners
  import opened Teardowns
  import opened Marking
  import opened Ordering
  import opened Capacity
  import opened Observing
  import opened Reconciling
  import opened Driving
  import opened Clouds

  predicate NoInstance(v: View) {
    v.instance.None? || v.instance.value.runState == Destroyed
  }

  predicate DiskBlocked(v: View) {
    NoInstance(v) && v.disk.Some? && !DiskDeletable(v.disk.value)
  }

  /** How many cycles, after the one that observes `v` at `t`, until the runner is gone. */
  function Rank(v: View, t: Time): nat {
    if Working(v) then (if v.teardown.None? || Waits(v, t) then 2 else 1)
    else if DiskBlocked(v) || Waits(v, t) then 1
    else 0
  }

  ghost predicate AtMost(vs: map<Name, View>, t: Time, k: nat) {
    forall n :: n in vs ==> Rank(vs[n], t) <= k
  }

  ghost function FleetRank(vs: map<Name, View>, t: Time): (k: nat)
    ensures k <= 2 && AtMost(vs, t, k)
    ensures k > 0 ==> !AtMost(vs, t, k - 1)
  {
    if AtMost(vs, t, 0) then 0 else if AtMost(vs, t, 1) then 1 else 2
  }

  /** Observed past its grace period, with no job and no window longer than the delay. */
  predicate Ripe(v: View, t: Time) {
    && (v.instance.Some? ==> PastGrace(v.instance.value.created, t))
    && (v.disk.Some? ==> PastGrace(v.disk.value.created, t))
    && (v.busy ==> v.teardown.Some?)
    && (v.teardown.Some? && v.teardown.value.removalAfter.Some? ==>
          v.teardown.value.removalAfter.value <= t + SCALE_DOWN_CANCELLATION_DELAY)
  }

  /** What one clean cycle with nothing to keep does to a runner: marked, driven, and
      then pruned, given up or left. */
  predicate Turned(v: View, m: View, q: View, p: Pass, w: Option<View>, t0: Time, t1: Time, t2: Time, t3: Time) {
    && MarkedAs(v, m, t0, t1) && Outcome(m, q, p) && InTime(p, t1, t2) && p.clean
    && (if Gone(q) then w.None?
        else w.Some? && (w.value == q || (Candidate(q, t3) && InWindow(q, w.value, t2, t3))) &&
             (Candidate(q, t2) ==> InWindow(q, w.value, t2, t3)))
  }

  /** Between two cycles a disk without an instance detaches, an instance told to stop
      stops, and nothing comes back to life. */
  predicate Quiet(w: View, i: Option<Instance>, d: Option<Disk>) {
    && !DiskBlocked(EMPTY_VIEW.(instance := i, disk := d))
    && (i.Some? && !InstanceHalted(i.value.runState) ==>
          Working(w) && w.instance.value.runState != Stopping && !InPhase(Some(w), Deprovisioning))
  }

  predicate Settled(w: View, v: View) {
    v == w.(instance := v.instance, disk := v.disk) && Quiet(w, v.instance, v.disk)
  }

  /** A runner that needs no further cycle is gone after this one. */
  lemma LastCycle(v: View, m: View, q: View, p: Pass, w: Option<View>, t0: Time, t1: Time, t2: Time, t3: Time)
    requires Ripe(v, t0) && Turned(v, m, q, p, w, t0, t1, t2, t3) && t0 <= t1 <= t2 <= t3
    requires Rank(v, t0) == 0
    ensures w.None?
  {
  }

  /** Any other is one cycle nearer at the next observation, if still seen. */
  lemma OneNearer(v: View, m: View, q: View, p: Pass, w: Option<View>, next: View,
                  t0: Time, t1: Time, t2: Time, t3: Time, s0: Time)
    requires Ripe(v, t0) && Turned(v, m, q, p, w, t0, t1, t2, t3) && t0 <= t1 <= t2 <= t3
    requires t3 + SCALE_DOWN_CANCELLATION_DELAY <= s0
    requires Settled(OrEmpty(w), next)
    ensures Rank(next, s0) < Rank(v, t0) || Rank(next, s0) == 0
  {
    assert !DiskBlocked(next);
    assert !Waits(next, s0);
    if Working(next) {
      assert Working(q);
      assert Working(v);
      if v.teardown.None? {
        assert next.teardown.Some?;
      } else {
        assert m == v;
        assert Rank(v, t0) == 2;
      }
    }
  }

  // ----- The fleet -----

  ghost predicate Ready(tr: Trace) {
    tr.ok && tr.clean && forall n :: n in tr.joined ==> Ripe(tr.joined[n], tr.t0)
  }

  /** What is observed next has settled since the records were left. */
  ghost predicate Settles(after: map<Name, View>, joined: map<Name, View>) {
    forall n :: n in joined ==> Settled(OrEmpty(Lookup(after, n)), joined[n])
  }

  lemma QuietSettles(after: map<Name, View>, tr: Trace)
    requires Joined(after, tr.joined, tr.sight.found, tr.sight.disks)
    requires forall n :: n in tr.joined ==>
            Quiet(OrEmpty(Lookup(after, n)), Lookup(tr.sight.found, n), Lookup(tr.sight.disks, n))
    ensures Settles(after, tr.joined)
  {
    forall n | n in tr.joined ensures Settled(OrEmpty(Lookup(after, n)), tr.joined[n]) {
      assert Lookup(tr.joined, n) == JoinedView(Lookup(after, n), Lookup(tr.sight.found, n), Lookup(tr.sight.disks, n));
    }
  }

  lemma NothingSettles(after: map<Name, View>)
    ensures Settles(after, map[])
  {
  }

  lemma NothingToScaleUp(vs: map<Name, View>, ws: map<Name, View>, back: set<Name>, t: Time)
    requires Reclaims(vs, ws, 0, back, t)
    ensures ws == vs
  {
  }

  /** Every candidate is given up when none is wanted. */
  lemma AllGivenUp(cfg: Config, vs: map<Name, View>, ws: map<Name, View>, how: Scaling, t0: Time, t1: Time)
    requires Scales(cfg, vs, ws, 0, how, t0, t1)
    ensures ws.Keys == vs.Keys
    ensures forall n :: n in vs ==>
              (ws[n] == vs[n] || (Candidate(vs[n], t1) && InWindow(vs[n], ws[n], t0, t1))) &&
              (Candidate(vs[n], t0) ==> InWindow(vs[n], ws[n], t0, t1))
  {
    match how
    case Unscaled =>
      assert ActiveSet(vs) == {};
      forall n | n in vs ensures !Active(vs[n]) {
        assert n !in ActiveSet(vs);
      }
    case Shrunk(cands, picked, _, _) =>
      assert cands <= ActiveSet(vs);
      SubsetSize(cands, ActiveSet(vs));
      SameSize(picked, cands);
  }

  /** A clean cycle with nothing to keep, seen from one runner. */
  lemma CycleClears(cfg: Config, desired: int, tr: Trace, after: map<Name, View>, n: Name)
    requires ValidConfig(cfg) && cfg.maxRunners == 0 && desired >= 0 && tr.clean
    requires Cycles(cfg, desired, tr, after) && n in tr.joined
    ensures n in tr.marked && n in tr.driven && n in tr.own
    ensures Turned(tr.joined[n], tr.marked[n], tr.driven[n], tr.own[n], Lookup(after, n), tr.t0, tr.t1, tr.t2, tr.t3)
  {
    NothingToScaleUp(tr.marked, tr.planned, tr.back, tr.reclaimedAt);
    AllGivenUp(cfg, Pruned(tr.driven), after, tr.how, tr.t2, tr.t3);
  }

  lemma CycleKeys(cfg: Config, desired: int, tr: Trace, after: map<Name, View>)
    requires ValidConfig(cfg) && cfg.maxRunners == 0 && desired >= 0
    requires Cycles(cfg, desired, tr, after)
    ensures after.Keys <= tr.joined.Keys
  {
    NothingToScaleUp(tr.marked, tr.planned, tr.back, tr.reclaimedAt);
    AllGivenUp(cfg, Pruned(tr.driven), after, tr.how, tr.t2, tr.t3);
  }

  /** The rank of the fleet strictly falls from one clean cycle to the next, and at rank
      zero the cycle leaves nothing. */
  lemma FleetFalls(cfg: Config, desired: int, tr: Trace, after: map<Name, View>, joined: map<Name, View>, s0: Time)
    requires ValidConfig(cfg) && cfg.maxRunners == 0 && desired >= 0
    requires Cycles(cfg, desired, tr, after) && Ready(tr)
    requires Settles(after, joined) && tr.t3 + SCALE_DOWN_CANCELLATION_DELAY <= s0
    ensures FleetRank(tr.joined, tr.t0) == 0 ==> after == map[]
    ensures FleetRank(tr.joined, tr.t0) > 0 ==> FleetRank(joined, s0) < FleetRank(tr.joined, tr.t0)
  {
    hide Cycles, Turned, Rank, Ripe, Settled;
    CycleKeys(cfg, desired, tr, after);
    var k := FleetRank(tr.joined, tr.t0);
    if k == 0 {
      forall n | n in tr.joined ensures n !in after {
        CycleClears(cfg, desired, tr, after, n);
        TraceTimes(cfg, desired, tr, after);
        LastCycle(tr.joined[n], tr.marked[n], tr.driven[n], tr.own[n], Lookup(after, n), tr.t0, tr.t1, tr.t2, tr.t3);
      }
    } else {
      forall n | n in joined ensures Rank(joined[n], s0) <= k - 1 {
        TraceTimes(cfg, desired, tr, after);
        if n in tr.joined {
          CycleClears(cfg, desired, tr, after, n);
          OneNearer(tr.joined[n], tr.marked[n], tr.driven[n], tr.own[n], Lookup(after, n), joined[n],
                    tr.t0, tr.t1, tr.t2, tr.t3, s0);
        } else {
          Unknown(joined[n], s0);
        }
      }
      assert AtMost(joined, s0, k - 1);
    }
  }

  lemma TraceTimes(cfg: Config, desired: int, tr: Trace, after: map<Name, View>)
    requires ValidConfig(cfg) && Cycles(cfg, desired, tr, after)
    ensures tr.t0 <= tr.t1 <= tr.t2 <= tr.t3
  {
  }

  lemma Unknown(v: View, t: Time)
    requires Settled(EMPTY_VIEW, v)
    ensures Rank(v, t) == 0
  {
  }

  /** One cycle of a drain, and the records it leaves. */
  datatype Turn = Turn(desired: int, tr: Trace, after: map<Name, View>)

  /** The second cycle hears of no job, finds the world quiet since the first, and comes
      at least the cancellation delay later. */
  ghost predicate Follow(a: Turn, b: Turn) {
    && b.tr.heard == a.after && a.tr.t3 + SCALE_DOWN_CANCELLATION_DELAY <= b.tr.t0
    && forall n :: n in b.tr.joined ==>
         Quiet(OrEmpty(Lookup(a.after, n)), Lookup(b.tr.sight.found, n), Lookup(b.tr.sight.disks, n))
  }

  ghost predicate Draining(cfg: Config, turns: seq<Turn>)
    requires ValidConfig(cfg)
  {
    && (forall i :: 0 <= i < |turns| ==>
          turns[i].desired >= 0 && Cycles(cfg, turns[i].desired, turns[i].tr, turns[i].after) && Ready(turns[i].tr))
    && (forall i, j :: 0 <= i && j == i + 1 && j < |turns| ==> Follow(turns[i], turns[j]))
  }

  lemma TurnFalls(cfg: Config, a: Turn, b: Turn)
    requires ValidConfig(cfg) && cfg.maxRunners == 0 && a.desired >= 0 && b.desired >= 0
    requires Cycles(cfg, a.desired, a.tr, a.after) && Ready(a.tr) && Cycles(cfg, b.desired, b.tr, b.after)
    requires Follow(a, b)
    ensures FleetRank(a.tr.joined, a.tr.t0) > 0 ==> FleetRank(b.tr.joined, b.tr.t0) < FleetRank(a.tr.joined, a.tr.t0)
  {
    hide Ready, FleetRank, Settles;
    QuietSettles(a.after, b.tr);
    FleetFalls(cfg, a.desired, a.tr, a.after, b.tr.joined, b.tr.t0);
  }

  /** As many more cycles as the fleet's rank, and some cycle has left nothing. */
  lemma {:induction false} DrainedBy(cfg: Config, turns: seq<Turn>)
    requires ValidConfig(cfg) && cfg.maxRunners == 0 && Draining(cfg, turns)
    requires |turns| > 0 && |turns| > FleetRank(turns[0].tr.joined, turns[0].tr.t0)
    ensures exists k :: 0 <= k <= FleetRank(turns[0].tr.joined, turns[0].tr.t0) && turns[k].after == map[]
  {
    hide Cycles, Ready, Settles, Follow, FleetRank;
    var first := turns[0];
    if FleetRank(first.tr.joined, first.tr.t0) == 0 {
      NothingSettles(first.after);
      FleetFalls(cfg, first.desired, first.tr, first.after, map[], first.tr.t3 + SCALE_DOWN_CANCELLATION_DELAY);
      assert turns[0].after == map[];
    } else {
      var rest := turns[1..];
      TurnFalls(cfg, turns[0], turns[1]);
      DrainedBy(cfg, rest);
      var k :| 0 <= k <= FleetRank(rest[0].tr.joined, rest[0].tr.t0) && rest[k].after == map[];
      assert turns[k + 1].after == map[];
    }
  }

  /** Whatever the fleet, three clean cycles suffice. */
  lemma DrainedInThree(cfg: Config, turns: seq<Turn>)
    requires ValidConfig(cfg) && cfg.maxRunners == 0 && Draining(cfg, turns) && |turns| == 3
    ensures exists k :: 0 <= k < 3 && turns[k].after == map[]
  {
    DrainedBy(cfg, turns);
  }

  /** No window a run ever opens is longer than the delay. */
  lemma WindowsShort(cfg: Config, s0: Sys, acts: seq<Action>, n: Name)
    requires Init(cfg, s0) && Legal(cfg, s0, acts)
    ensures var s := Exec(cfg, s0, acts);
            var v := OrEmpty(At(s, n).view);
            v.teardown.Some? && v.teardown.value.removalAfter.Some? ==>
              v.teardown.value.removalAfter.value <= s.g.now + SCALE_DOWN_CANCELLATION_DELAY
  {
    RunInv(cfg, s0, acts);
    var s := Exec(cfg, s0, acts);
    assert LocalInv(cfg, s.g, n, At(s, n));
  }
}
