/** What the decisions of a cycle come to for one runner, in states and times. */
module Accounts {
  import opened Types
  import opened Protocol
  import opened Invariant
  import opened System
  import opened Theorems
  import opened Runners
  import opened Teardowns
  import opened Marking
  import opened Capacity
  import opened Scalers
  import opened Observing
  import opened Driving
  import opened Reconciling

  // ----- States and times -----

  /** An instance in one of these states will never run a job again. */
  const HALTED := {Stopped, Failed, Destroyed}

  /** Unknown ages count as old. */
  predicate FiveMinutesOld(created: Option<Time>, t: Time) {
    created.Some? ==> created.value + 5 * MINUTE <= t
  }

  /** Ten minutes in its state, or, if that is not known, since its creation. */
  predicate TenMinutesStuck(i: Instance, t: Time) {
    match (i.runStateUpdated, i.created)
    case (Some(updated), _) => updated + 10 * MINUTE <= t
    case (None, Some(created)) => created + 10 * MINUTE <= t
    case (None, None) => true
  }

  /** The instance is up, as far as is known, and nothing tears the runner down. */
  predicate Serving(v: View) {
    v.teardown.None? && v.instance.Some? && v.instance.value.runState !in HALTED
  }

  /** Past saving: halted, or stuck while being provisioned. */
  predicate Hopeless(i: Instance, t: Time) {
    i.runState in HALTED || (i.runState in {Creating, Starting} && TenMinutesStuck(i, t))
  }

  function Condemned(v: View, phase: Phase): View {
    v.(teardown := Some(Teardown(Permanent, phase, None)))
  }

  // ----- Who is seen -----

  /** After an observation the runners are those known before or listed now, each with just
      the resources listed under its name, as busy and as far torn down as before. */
  lemma ObservedWho(vs: map<Name, View>, ws: map<Name, View>, found: map<Name, Instance>, disks: map<Name, Disk>,
                    n: Name)
    requires Joined(vs, ws, found, disks)
    ensures n in ws <==> n in vs || n in found || n in disks
    ensures n in ws ==>
              && ws[n].instance == (if n in found then Some(found[n]) else None)
              && ws[n].disk == (if n in disks then Some(disks[n]) else None)
              && ws[n].busy == (n in vs && vs[n].busy)
              && ws[n].teardown == (if n in vs then vs[n].teardown else None)
  {
    assert Lookup(ws, n) == JoinedView(Lookup(vs, n), Lookup(found, n), Lookup(disks, n));
  }

  // ----- Who is marked -----

  /** An instance is condemned once it is five minutes old and hopeless, and only then. */
  lemma InstancesMarked(vs: map<Name, View>, ws: map<Name, View>, t0: Time, t1: Time, n: Name)
    requires MarkedSoFar(vs, ws, DueInstance, t0, t1, {}) && n in vs
    ensures var v := vs[n];
            var untouched := v.teardown.None? && v.instance.Some?;
            && (untouched && FiveMinutesOld(v.instance.value.created, t0) && Hopeless(v.instance.value, t0) ==>
                  ws[n] == Condemned(v, RemovingRegistration))
            && (ws[n] != v ==>
                  && ws[n] == Condemned(v, RemovingRegistration) && untouched
                  && FiveMinutesOld(v.instance.value.created, t1) && Hopeless(v.instance.value, t1))
  {
  }

  /** A disk without an instance condemns its runner once it is five minutes old. */
  lemma DisksMarked(vs: map<Name, View>, ws: map<Name, View>, t0: Time, t1: Time, n: Name)
    requires MarkedSoFar(vs, ws, DueDisk, t0, t1, {}) && n in vs
    ensures var v := vs[n];
            var orphaned := v.teardown.None? && v.instance.None? && v.disk.Some?;
            && (orphaned && FiveMinutesOld(v.disk.value.created, t0) ==> ws[n] == Condemned(v, RemovingRegistration))
            && (ws[n] != v ==>
                  && ws[n] == Condemned(v, RemovingRegistration) && orphaned
                  && FiveMinutesOld(v.disk.value.created, t1))
  {
  }

  /** The audit condemns runners that serve and are five minutes old, past the removal of
      the registration; and any such runner without one that it does not miss. */
  lemma AuditMarked(cfg: Config, s: Sys, vs: map<Name, View>, ws: map<Name, View>, t0: Time, t1: Time, n: Name)
    requires AuditedViews(vs, ws, t1) && n in vs && At(s, n).view == Some(vs[n])
    ensures ws[n] != vs[n] ==>
              && ws[n] == Condemned(vs[n], Deprovisioning) && Serving(vs[n])
              && FiveMinutesOld(vs[n].instance.value.created, t1)
    ensures var l := At(s, n);
            Serving(vs[n]) && FiveMinutesOld(vs[n].instance.value.created, t0) &&
            Owned(cfg, n) && l.cell.known && l.cell.reg.None? && !l.cell.regPending && l.note.prov == NoProvision &&
            n !in Missed(cfg, s, vs, ws, {}, t0) ==>
              ws[n] == Condemned(vs[n], Deprovisioning)
  {
  }

  // ----- Who is taken back, and who is given up -----

  /** Up, and given up by a scale-down that can still be called off at `t`. */
  predicate CallableOff(v: View, t: Time) {
    && v.instance.Some? && v.instance.value.runState !in HALTED
    && v.teardown.Some? && v.teardown.value.policy == Cancelable && v.teardown.value.phase == Window
    && v.teardown.value.removalAfter.Some? && t < v.teardown.value.removalAfter.value
  }

  /** Demand takes back runners whose scale-down can still be called off, leaves the others
      alone, and while it is not met leaves none of those behind. */
  lemma TakenBack(vs: map<Name, View>, ws: map<Name, View>, target: int, back: set<Name>, t: Time, n: Name)
    requires Reclaims(vs, ws, target, back, t) && n in vs
    ensures n in ws && ws[n] == if n in back then vs[n].(teardown := None) else vs[n]
    ensures n in back ==> CallableOff(vs[n], t) && |ActiveSet(ws)| <= target
    ensures |ActiveSet(ws)| < target && CallableOff(vs[n], t) ==> n in back
  {
    ReclaimsCount(vs, ws, target, back, t);
    assert n in ReclaimableSet(vs, t) <==> CallableOff(vs[n], t);
  }

  /** The runner has a window that ends five seconds after a time between the two. */
  predicate Opened(v: View, w: View, t0: Time, t1: Time) {
    && w.teardown.Some? && w.teardown.value.removalAfter.Some?
    && w == v.(teardown := Some(Teardown(Cancelable, Window, w.teardown.value.removalAfter)))
    && t0 + 5 * SECOND <= w.teardown.value.removalAfter.value <= t1 + 5 * SECOND
  }

  /** Idle for long enough to be given up. */
  predicate Spareable(v: View, t: Time) {
    Serving(v) && !v.busy && FiveMinutesOld(v.instance.value.created, t)
  }

  /** Scale-down opens a window of five seconds for idle runners that serve and are five
      minutes old, and leaves the others alone. */
  lemma GivenUpWho(cfg: Config, vs: map<Name, View>, ws: map<Name, View>, target: int, how: Scaling, t0: Time, t1: Time,
                   n: Name)
    requires Scales(cfg, vs, ws, target, how, t0, t1) && how.Shrunk? && n in vs
    ensures n in ws && (n !in how.picked ==> ws[n] == vs[n])
    ensures n in how.picked ==> Spareable(vs[n], t1) && Opened(vs[n], ws[n], t0, t1)
  {
    hide ActiveSet, Chosen;
    if n in how.picked {
      assert n in CandidateSet(vs, t1);
    }
  }

  /** While there are too many it leaves none of those behind. */
  lemma NoneSpared(cfg: Config, vs: map<Name, View>, ws: map<Name, View>, target: int, how: Scaling, t0: Time, t1: Time,
                   n: Name)
    requires Scales(cfg, vs, ws, target, how, t0, t1) && how.Shrunk? && n in vs
    requires |ActiveSet(ws)| > target && Spareable(vs[n], t0)
    ensures n in how.picked
  {
    hide Chosen;
    ScaledDownCount(vs, ws, how.cands, how.picked, t0, t1, how.deadline);
    SameSize(how.picked, how.cands);
    assert n in CandidateSet(vs, t0);
  }

  /** The runners that count towards demand are those that serve. */
  lemma ActiveWho(vs: map<Name, View>, n: Name)
    ensures n in ActiveSet(vs) <==> n in vs && Serving(vs[n])
    ensures n in Pruned(vs) <==> n in vs && (vs[n].instance.Some? || vs[n].disk.Some? || vs[n].teardown.Some?)
  {
  }

  // ----- What a teardown does -----

  /** The disk may go by itself. */
  predicate Loose(d: Option<Disk>) {
    d.Some? ==> d.value.state in {Detached, Faulted}
  }

  /** Where a clean pass gets a runner past its window, by the state it was last seen in: it
      is gone if its instance was halted and could be deleted, or was not there and its
      disk loose; it waits for the disk if it was not there and its disk was not; and
      otherwise it waits for the instance. */
  lemma PassByState(v: View, w: View, p: Pass)
    requires Outcome(v, w, p) && p.clean && v.teardown.Some?
    requires v.teardown.value.phase == Window && v.teardown.value.removalAfter.Some? ==>
               v.teardown.value.removalAfter.value <= p.at
    ensures var gone := v.(instance := None, disk := None, teardown := None);
            var waiting := v.(teardown := Some(Teardown(v.teardown.value.policy, Deprovisioning, None)));
            match v.instance
            case None => w == if Loose(v.disk) then gone else waiting
            case Some(i) =>
              if i.runState in {Stopped, Failed} then w == gone
              else if i.runState == Destroyed then w == if Loose(v.disk) then gone else waiting.(instance := None)
              else w == waiting
  {
  }

  /** A pass before the end of the window changes nothing and asks for that end. */
  lemma WindowKept(v: View, w: View, p: Pass)
    requires Outcome(v, w, p) && v.teardown.Some? && v.teardown.value.phase == Window
    requires v.teardown.value.removalAfter.Some? && p.at < v.teardown.value.removalAfter.value
    ensures p.clean && w == v && p.deadline == v.teardown.value.removalAfter
  {
  }

  // ----- What an event does -----

  /** A started job makes its runner busy and calls off a cancelable teardown that is not
      yet deprovisioning; a completed one makes any teardown permanent, and one that had
      not begun to remove the registration begins. */
  lemma EventMeans(vs: map<Name, View>, e: JobEvent)
    requires e.jobStatus != OtherStatus
    ensures var n := e.runnerName;
            var v := if n in vs then vs[n] else View(None, None, false, None);
            n in ApplyEvent(vs, e) && ApplyEvent(vs, e)[n].instance == v.instance &&
            ApplyEvent(vs, e)[n].disk == v.disk &&
            var td := ApplyEvent(vs, e)[n].teardown;
            if e.jobStatus == Started
            then ApplyEvent(vs, e)[n].busy &&
                 td == (if v.teardown.Some? && v.teardown.value.policy == Cancelable &&
                           v.teardown.value.phase in {Window, RemovingRegistration} then None else v.teardown)
            else ApplyEvent(vs, e)[n].busy == v.busy &&
                 match v.teardown
                 case None => td == Some(Teardown(Permanent, RemovingRegistration, None))
                 case Some(t) =>
                   if t.policy == Permanent then td == v.teardown
                   else if t.phase == Window then td == Some(Teardown(Permanent, RemovingRegistration, None))
                   else td == Some(Teardown(Permanent, t.phase, t.removalAfter))
    ensures forall m :: m in vs && m != e.runnerName ==> m in ApplyEvent(vs, e) && ApplyEvent(vs, e)[m] == vs[m]
  {
  }
}
