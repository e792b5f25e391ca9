/** Driving one runner's teardown as far as it goes without waiting. */
module Teardowns {
  import opened Types
  import opened Protocol
  import opened Invariant
  import opened System
  import opened Clouds
  import opened Runners

  /** The controller's records are what the run says the controller believes. */
  ghost predicate Wired(cloud: Cloud, st: ReconcileState)
    reads cloud, st, st.repr
  {
    cloud.Valid() && st.Valid() && cloud !in st.repr && Coupled(cloud, st)
  }

  ghost predicate Coupled(cloud: Cloud, st: ReconcileState)
    requires st.Valid()
    reads cloud, st, st.repr
  {
    forall n :: At(cloud.sys, n).view == Lookup(st.Views(), n)
  }

  lemma Unwire(cloud: Cloud, st: ReconcileState)
    requires Wired(cloud, st)
    ensures cloud.Valid() && st.Valid() && cloud !in st.repr
  {
  }

  /** The same process, no earlier, and no less troubled. */
  twostate predicate Onward(cloud: Cloud)
    reads cloud
  {
    Grew(old(cloud.acts), cloud.acts) && old(cloud.now) <= cloud.now && old(cloud.trouble) <= cloud.trouble
  }

  /** As above, and busy with one runner only. */
  twostate predicate OnwardFor(cloud: Cloud, n: Name)
    reads cloud
  {
    Onward(cloud) && GrewFor(old(cloud.acts), cloud.acts, n)
  }

  ghost predicate Tracks(st: ReconcileState, r: Runner)
    reads st
  {
    r.name in st.runners && st.runners[r.name] == r
  }

  /** Writing one runner changes no other view. */
  twostate lemma OthersSame(new st: ReconcileState, new r: Runner)
    requires old(allocated(st) && allocated(r)) && old(st.Valid()) && Tracks(st, r)
    requires st.runners == old(st.runners) && old(st.repr) <= st.repr
    requires forall o :: o in old(st.repr) && o != st && o != r && o != old(r.teardown) ==> unchanged(o)
    requires r.teardown != null ==> r.teardown.owner == r && r.teardown in st.repr
    ensures st.Valid() && st.Views() == old(st.Views())[r.name := r.Val()]
  {
    assert old(st.Filed(r.name));
    forall m | m in st.runners ensures st.Filed(m) && (m != r.name ==>
            st.runners[m].Val() == old(st.runners[m].Val())) {
      assert old(st.Filed(m));
    }
  }

  /** Records and run agree again once both took the same step of one runner. */
  twostate lemma Recoupled(new cloud: Cloud, new st: ReconcileState, new n: Name, new v: View)
    requires old(allocated(cloud) && allocated(st)) && old(Wired(cloud, st))
    requires st.Valid() && st.Views() == old(st.Views())[n := v] && cloud !in st.repr
    requires cloud.Valid() && OneMoved(old(cloud.sys), cloud.sys, n) && At(cloud.sys, n).view == Some(v)
    ensures Wired(cloud, st)
  {
    hide Run, Init;
  }

  twostate lemma Rewired(new cloud: Cloud, new st: ReconcileState, new r: Runner)
    requires old(allocated(cloud) && allocated(st) && allocated(r)) && old(Wired(cloud, st))
    requires unchanged(st) && Tracks(st, r)
    requires forall o :: o in st.repr && o != r && o != old(r.teardown) ==> unchanged(o)
    requires r.teardown != null ==> r.teardown.owner == r && r.teardown in st.repr
    requires cloud.Valid() && OneMoved(old(cloud.sys), cloud.sys, r.name)
    requires At(cloud.sys, r.name).view == Some(r.Val())
    ensures Wired(cloud, st)
  {
    hide Run, Init;
    OthersSame(st, r);
    Recoupled(cloud, st, r.name, r.Val());
  }

  datatype RemoveError = NoError | JobStillRunning | OtherError

  /** What each answer makes of the runner. */
  function RemovedView(v: View, e: RemoveError): View
    requires v.teardown.Some?
  {
    match e
    case NoError => IssueView(Remove(Removed), v)
    case JobStillRunning => IssueView(Remove(StillRunning), v)
    case OtherError => v
  }

  method RemoveRunner(cloud: Cloud, name: Name) returns (e: RemoveError)
    requires cloud.Valid() && cloud.sys.g.stage == Act && InPhase(At(cloud.sys, name).view, RemovingRegistration)
    modifies cloud
    ensures cloud.Valid() && OneMoved(old(cloud.sys), cloud.sys, name) && OnwardFor(cloud, name)
    ensures At(cloud.sys, name).view == Some(RemovedView(At(old(cloud.sys), name).view.value, e))
    ensures e != NoError ==> old(cloud.trouble) < cloud.trouble
    ensures e == JobStillRunning ==> At(cloud.sys, name).cell.job
    ensures e == NoError && Owned(cloud.cfg, name) ==> At(cloud.sys, name).cell.reg.None?
  {
    hide Run, Init, GrewFor, GrewAlone;
    ghost var acts := cloud.acts;
    var reply := cloud.GetRunnerByName(name);
    ForAlone(acts, cloud.acts, name);
    if reply.Error? {
      return OtherError;
    }
    if reply.value.None? {
      ForOne(cloud.acts, Drive(name, ConfirmGone), name);
      ForOn(acts, cloud.acts, cloud.acts + [Drive(name, ConfirmGone)], name);
      cloud.Advance(name, ConfirmGone);
      return NoError;
    }
    var reg := reply.value.value;
    if reg.scaleSet != cloud.cfg.scaleSet {
      return OtherError;
    }
    ForOne(cloud.acts, Drive(name, Fetch(reg)), name);
    ForOn(acts, cloud.acts, cloud.acts + [Drive(name, Fetch(reg))], name);
    cloud.Advance(name, Fetch(reg));
    ghost var fetched := cloud.acts;
    var outcome := cloud.RemoveRunner(name, reg);
    ForOn(acts, fetched, cloud.acts, name);
    match outcome
    case Removed =>
      e := NoError;
      GoneOnceDeprovisioned(cloud, name);
    case StillRunning => e := JobStillRunning;
    case RemoveFailed(_) => e := OtherError;
  }

  /** A runner being deprovisioned has no registration, in every reachable state. */
  lemma GoneOnceDeprovisioned(cloud: Cloud, n: Name)
    requires cloud.Valid() && InPhase(At(cloud.sys, n).view, Deprovisioning)
    ensures Owned(cloud.cfg, n) ==> At(cloud.sys, n).cell.reg.None?
  {
    hide Run, Init;
    cloud.Invariant();
    assert LocalInv(cloud.cfg, cloud.sys.g, n, At(cloud.sys, n));
  }

  /** A stop was issued for the runner, and taken. */
  ghost predicate ToldToStop(before: seq<Action>, after: seq<Action>, n: Name) {
    exists k :: |before| <= k < |after| && after[k].Issue? && after[k].n == n && after[k].r.StopCall? && after[k].r.ok
  }

  lemma ToldBefore(a: seq<Action>, b: seq<Action>, c: seq<Action>, n: Name)
    requires Grew(a, b) && Grew(b, c)
    ensures ToldToStop(a, b, n) || ToldToStop(b, c, n) ==> ToldToStop(a, c, n)
  {
    if ToldToStop(a, b, n) {
      var k :| |a| <= k < |b| && b[k].Issue? && b[k].n == n && b[k].r.StopCall? && b[k].r.ok;
      assert c[k] == b[k];
    }
  }

  predicate MustStop(v: View) {
    Working(v) && v.instance.value.runState != Stopping
  }

  /** The cancellation window of the runner is still open. */
  predicate Waits(v: View, t: Time) {
    v.teardown.Some? && v.teardown.value.phase == Window && !WindowOver(v.teardown.value, t)
  }

  /** Where a deprovisioning runner gets to when no call fails. */
  function Deprovisioned(v: View): View {
    var diskGoes := v.disk.None? || DiskDeletable(v.disk.value);
    if v.instance.None? then
      if diskGoes then v.(disk := None, teardown := None) else v
    else if Halting(v.instance.value.runState) then v.(instance := None, disk := None, teardown := None)
    else if v.instance.value.runState == Destroyed then
      if diskGoes then v.(instance := None, disk := None, teardown := None) else v.(instance := None)
    else v
  }

  /** Where one pass at time `t` gets a runner when no call fails. */
  function IdealPass(v: View, t: Time): View
    requires v.teardown.Some?
  {
    var td := v.teardown.value;
    if Waits(v, t) then v
    else Deprovisioned(v.(teardown := Some(td.(phase := Deprovisioning, removalAfter := None))))
  }

  /** Where a call that fails while deprovisioning leaves a runner: with its instance, or
      without it and with its disk. */
  predicate HeldUp(u: View, w: View) {
    || (w == u && u.instance.Some? && (Halting(u.instance.value.runState) || MustStop(u)))
    || (w == u.(instance := None) && u.disk.Some? &&
        (if u.instance.Some? && Halting(u.instance.value.runState) then true
         else (u.instance.None? || u.instance.value.runState == Destroyed) && DiskDeletable(u.disk.value)))
  }

  /** Where one pass at time `t` leaves a runner when a call fails or is refused. */
  predicate Stuck(v: View, w: View, t: Time)
    requires v.teardown.Some?
  {
    var td := v.teardown.value;
    && !Waits(v, t)
    && (|| (td.phase != Deprovisioning &&
            exists e :: e != NoError &&
              w == RemovedView(v.(teardown := Some(td.(phase := RemovingRegistration, removalAfter := None))), e))
        || HeldUp(v.(teardown := Some(td.(phase := Deprovisioning, removalAfter := None))), w))
  }

  /** When a runner is to be driven again: when its window ends, five seconds from now to
      poll, or fifteen to retry; or its teardown is over. */
  predicate Due(v: View, deadline: Option<Time>, now: Time, clean: bool) {
    match v.teardown
    case None => deadline.None?
    case Some(t) =>
      if t.phase == Window then deadline == t.removalAfter && deadline.Some?
      else deadline == Some(now + if clean then 5 * SECOND else 15 * SECOND)
  }

  method NextReconcileAfter(cloud: Cloud, delay: Time) returns (t: Option<Time>)
    requires cloud.Valid()
    modifies cloud
    ensures cloud.Valid() && EnvOnly(old(cloud.sys), cloud.sys) && Onward(cloud)
    ensures GrewAlone(old(cloud.acts), cloud.acts) && cloud.images == old(cloud.images)
    ensures t == Some(cloud.now + delay)
  {
    var now := cloud.Now();
    t := Some(now + delay);
  }

  /** A runner that is being deprovisioned, with records and run in step. */
  ghost predicate InHand(cloud: Cloud, st: ReconcileState, r: Runner)
    reads cloud, st, st.repr, r, r.teardown
  {
    Wired(cloud, st) && Tracks(st, r) && cloud.sys.g.stage == Act &&
    r.teardown != null && r.teardown.phase == Deprovisioning
  }

  lemma Seen(cloud: Cloud, st: ReconcileState, r: Runner)
    requires Wired(cloud, st) && Tracks(st, r)
    ensures st.Filed(r.name) && At(cloud.sys, r.name).view == Some(r.Val()) && r in st.repr
  {
    hide Run, Init;
    assert st.Filed(r.name);
  }

  method DeleteInstance(cloud: Cloud, st: ReconcileState, r: Runner) returns (ok: bool)
    requires InHand(cloud, st, r) && r.instance.Some? && Halting(r.instance.value.runState)
    modifies r`instance, cloud
    ensures InHand(cloud, st, r) && OnwardFor(cloud, r.name)
    ensures r.instance == if ok then None else old(r.instance)
    ensures At(cloud.sys, r.name).note.deletedNow == (ok || At(old(cloud.sys), r.name).note.deletedNow)
    ensures !ok ==> old(cloud.trouble) < cloud.trouble
  {
    hide Run, Init, GrewFor;
    Seen(cloud, st, r);
    ok := cloud.InstanceDelete(r.name);
    if ok {
      r.instance := None;
    }
    Rewired(cloud, st, r);
  }

  method ForgetInstance(cloud: Cloud, st: ReconcileState, r: Runner)
    requires InHand(cloud, st, r) && r.instance.Some? && r.instance.value.runState == Destroyed
    modifies r`instance, cloud
    ensures InHand(cloud, st, r) && OnwardFor(cloud, r.name) && r.instance.None?
    ensures At(cloud.sys, r.name).note.deletedNow == At(old(cloud.sys), r.name).note.deletedNow
  {
    hide Run, Init, GrewFor;
    Seen(cloud, st, r);
    ForOne(cloud.acts, Drive(r.name, ForgetDestroyed), r.name);
    cloud.Advance(r.name, ForgetDestroyed);
    r.instance := None;
    Rewired(cloud, st, r);
  }

  method DeleteDisk(cloud: Cloud, st: ReconcileState, r: Runner) returns (ok: bool)
    requires InHand(cloud, st, r) && r.instance.None? && r.disk.Some?
    requires DiskDeletable(r.disk.value) || At(cloud.sys, r.name).note.deletedNow
    modifies r`disk, cloud
    ensures InHand(cloud, st, r) && OnwardFor(cloud, r.name)
    ensures r.disk == if ok then None else old(r.disk)
    ensures !ok ==> old(cloud.trouble) < cloud.trouble
  {
    hide Run, Init, GrewFor;
    Seen(cloud, st, r);
    ok := cloud.DiskDelete(r.name);
    if ok {
      r.disk := None;
    }
    Rewired(cloud, st, r);
  }

  method FinishTeardown(cloud: Cloud, st: ReconcileState, r: Runner)
    requires InHand(cloud, st, r) && r.instance.None? && r.disk.None?
    modifies r`teardown, cloud
    ensures Wired(cloud, st) && cloud.sys.g.stage == Act && OnwardFor(cloud, r.name) && r.teardown == null
  {
    hide Run, Init, GrewFor;
    Seen(cloud, st, r);
    ForOne(cloud.acts, Drive(r.name, Finish), r.name);
    cloud.Advance(r.name, Finish);
    r.teardown := null;
    Rewired(cloud, st, r);
  }

  method StopInstance(cloud: Cloud, st: ReconcileState, r: Runner) returns (ok: bool)
    requires InHand(cloud, st, r) && r.instance.Some? && !InstanceHalted(r.instance.value.runState)
    requires r.instance.value.runState != Stopping
    modifies cloud
    ensures InHand(cloud, st, r) && OnwardFor(cloud, r.name)
    ensures !ok ==> old(cloud.trouble) < cloud.trouble
    ensures ok ==> ToldToStop(old(cloud.acts), cloud.acts, r.name)
  {
    hide Run, Init, GrewFor;
    Seen(cloud, st, r);
    ok := cloud.InstanceStop(r.name);
  }

  method Later(cloud: Cloud, st: ReconcileState, delay: Time) returns (t: Option<Time>)
    requires Wired(cloud, st)
    modifies cloud
    ensures Wired(cloud, st) && cloud.sys.g.stage == old(cloud.sys).g.stage && Onward(cloud)
    ensures GrewAlone(old(cloud.acts), cloud.acts)
    ensures t == Some(cloud.now + delay)
  {
    hide Run, Init;
    t := NextReconcileAfter(cloud, delay);
  }

  /** An instance that may still be up is told to stop, unless it is stopping already. */
  method HaltInstance(cloud: Cloud, st: ReconcileState, r: Runner)
    returns (deadline: Option<Time>, ghost clean: bool)
    requires InHand(cloud, st, r) && Working(r.Val())
    modifies cloud
    ensures InHand(cloud, st, r) && OnwardFor(cloud, r.name)
    ensures Due(r.Val(), deadline, cloud.now, clean)
    ensures !clean ==> old(cloud.trouble) < cloud.trouble
    ensures clean && MustStop(r.Val()) ==> ToldToStop(old(cloud.acts), cloud.acts, r.name)
    ensures !clean ==> MustStop(r.Val())
  {
    hide Run, Init, ToldToStop, GrewFor, GrewAlone;
    clean := true;
    if r.instance.value.runState == Stopping {
      deadline := Later(cloud, st, TEARDOWN_POLL_DELAY);
      ForAlone(old(cloud.acts), cloud.acts, r.name);
      return;
    }
    var ok := StopInstance(cloud, st, r);
    ghost var acts := cloud.acts;
    clean := ok;
    deadline := Later(cloud, st, if ok then TEARDOWN_POLL_DELAY else RECONCILE_RETRY_DELAY);
    ToldBefore(old(cloud.acts), acts, cloud.acts, r.name);
    ForAlone(acts, cloud.acts, r.name);
    ForOn(old(cloud.acts), acts, cloud.acts, r.name);
  }

  /** The disk goes once it is detached, or right after its instance. */
  method DropDisk(cloud: Cloud, st: ReconcileState, r: Runner, deleted: bool)
    returns (deadline: Option<Time>, ghost clean: bool)
    requires InHand(cloud, st, r) && r.instance.None?
    requires deleted ==> At(cloud.sys, r.name).note.deletedNow
    modifies r, cloud
    ensures Wired(cloud, st) && cloud.sys.g.stage == Act && OnwardFor(cloud, r.name)
    ensures r.teardown == null || r.teardown == old(r.teardown)
    ensures Due(r.Val(), deadline, cloud.now, clean)
    ensures !clean ==> old(cloud.trouble) < cloud.trouble
    ensures !deleted && old(r.disk).Some? && old(r.disk).value.state in {Attached, OtherDiskState} ==>
              clean && r.Val() == old(r.Val())
    ensures clean && (deleted || old(r.disk).None? || old(r.disk).value.state in {Detached, Faulted}) ==>
              r.Val() == old(r.Val()).(disk := None, teardown := None)
    ensures !clean ==> old(r.disk).Some? && (deleted || old(r.disk).value.state in {Detached, Faulted}) &&
                       r.Val() == old(r.Val())
  {
    hide Run, Init, GrewFor, GrewAlone;
    deadline, clean := None, true;
    ghost var acts := cloud.acts;
    ForNone(acts, r.name);
    if r.disk.Some? {
      if !deleted && !DiskDeletable(r.disk.value) {
        deadline := Later(cloud, st, TEARDOWN_POLL_DELAY);
        ForAlone(old(cloud.acts), cloud.acts, r.name);
        return;
      }
      var ok := DeleteDisk(cloud, st, r);
      acts := cloud.acts;
      if !ok {
        clean := false;
        deadline := Later(cloud, st, RECONCILE_RETRY_DELAY);
        ForAlone(acts, cloud.acts, r.name);
        ForOn(old(cloud.acts), acts, cloud.acts, r.name);
        return;
      }
    }
    FinishTeardown(cloud, st, r);
    ForOn(old(cloud.acts), acts, cloud.acts, r.name);
  }

  /** What is left once the instance is out of the way, and how the pass may end. */
  lemma DiskNext(u: View, deleted: bool, w: View, clean: bool)
    requires u.teardown.Some?
    requires if deleted then u.instance.Some? && Halting(u.instance.value.runState)
             else u.instance.None? || u.instance.value.runState == Destroyed
    requires var x := u.(instance := None);
             var goes := deleted || u.disk.None? || DiskDeletable(u.disk.value);
             if clean then w == (if goes then x.(disk := None, teardown := None) else x)
             else u.disk.Some? && goes && w == x
    ensures clean ==> w == Deprovisioned(u)
    ensures !clean ==> HeldUp(u, w)
  {
  }

  lemma InstanceKept(u: View)
    requires Working(u)
    ensures u == Deprovisioned(u) && (MustStop(u) ==> HeldUp(u, u))
  {
  }

  lemma InstanceRefused(u: View)
    requires u.instance.Some? && Halting(u.instance.value.runState)
    ensures HeldUp(u, u)
  {
  }

  /** A halted instance is deleted, a destroyed one forgotten. */
  method ClearInstance(cloud: Cloud, st: ReconcileState, r: Runner)
    returns (ok: bool, deleted: bool, deadline: Option<Time>)
    requires InHand(cloud, st, r) && !Working(r.Val())
    modifies r`instance, cloud
    ensures InHand(cloud, st, r) && OnwardFor(cloud, r.name)
    ensures ok ==> r.instance.None? && (deleted ==> At(cloud.sys, r.name).note.deletedNow)
    ensures ok ==> (deleted <==> old(r.instance).Some? && Halting(old(r.instance).value.runState))
    ensures !ok ==> old(r.instance).Some? && Halting(old(r.instance).value.runState) && r.instance == old(r.instance)
    ensures !ok ==> old(cloud.trouble) < cloud.trouble && Due(r.Val(), deadline, cloud.now, false)
  {
    hide Run, Init, GrewFor, GrewAlone;
    ok, deleted, deadline := true, false, None;
    ForNone(cloud.acts, r.name);
    if r.instance.None? {
      return;
    }
    var state := r.instance.value.runState;
    if state == Stopped || state == Failed {
      ok := DeleteInstance(cloud, st, r);
      ghost var acts := cloud.acts;
      deleted := ok;
      if !ok {
        deadline := Later(cloud, st, RECONCILE_RETRY_DELAY);
        ForAlone(acts, cloud.acts, r.name);
        ForOn(old(cloud.acts), acts, cloud.acts, r.name);
      }
    } else {
      ForgetInstance(cloud, st, r);
    }
  }

  /** The end of a pass: instance, then disk, then nothing. */
  method Deprovision(cloud: Cloud, st: ReconcileState, r: Runner)
    returns (deadline: Option<Time>, ghost clean: bool)
    requires InHand(cloud, st, r)
    modifies r, cloud
    ensures Wired(cloud, st) && cloud.sys.g.stage == Act && OnwardFor(cloud, r.name)
    ensures r.teardown == null || r.teardown == old(r.teardown)
    ensures Due(r.Val(), deadline, cloud.now, clean)
    ensures clean ==> r.Val() == Deprovisioned(old(r.Val()))
    ensures !clean ==> old(cloud.trouble) < cloud.trouble
    ensures clean && MustStop(old(r.Val())) ==> ToldToStop(old(cloud.acts), cloud.acts, r.name)
    ensures !clean ==> HeldUp(old(r.Val()), r.Val())
  {
    hide Run, Init, ToldToStop, GrewFor, HeldUp, Deprovisioned, MustStop, Due;
    ghost var u := r.Val();
    if r.instance.Some? && !InstanceHalted(r.instance.value.runState) {
      deadline, clean := HaltInstance(cloud, st, r);
      InstanceKept(u);
      return;
    }
    NotUp(u);
    var ok, deleted, at := ClearInstance(cloud, st, r);
    ghost var acts := cloud.acts;
    if !ok {
      InstanceRefused(u);
      return at, false;
    }
    deadline, clean := DropDisk(cloud, st, r, deleted);
    ForOn(old(cloud.acts), acts, cloud.acts, r.name);
    DiskNext(u, deleted, r.Val(), clean);
  }

  lemma NotUp(u: View)
    requires !Working(u)
    ensures !MustStop(u)
  {
  }

  /** Removing the registration; a job still running cancels a cancelable teardown. */
  method RemoveRegistration(cloud: Cloud, st: ReconcileState, r: Runner)
    returns (ready: bool, deadline: Option<Time>, ghost e: RemoveError)
    requires Wired(cloud, st) && Tracks(st, r) && cloud.sys.g.stage == Act
    requires r.teardown != null && r.teardown.phase == RemovingRegistration
    modifies r, r.teardown, cloud
    ensures Wired(cloud, st) && cloud.sys.g.stage == Act && OnwardFor(cloud, r.name)
    ensures r.teardown == null || r.teardown == old(r.teardown)
    ensures r.Val() == RemovedView(old(r.Val()), e) && (ready <==> e == NoError)
    ensures r.instance == old(r.instance) && r.disk == old(r.disk) && r.busy == (old(r.busy) || e == JobStillRunning)
    ensures e == NoError ==> r.teardown != null && r.teardown.phase == Deprovisioning &&
                             r.teardown.policy == old(r.teardown.policy) && r.teardown.removalAfter.None?
    ensures e == JobStillRunning && old(r.teardown.policy) == Cancelable ==> r.teardown == null
    ensures e == OtherError || (e == JobStillRunning && old(r.teardown.policy) == Permanent) ==>
              r.teardown != null && r.teardown.Val() == old(r.teardown.Val())
    ensures !ready ==> Due(r.Val(), deadline, cloud.now, false)
    ensures !ready ==> old(cloud.trouble) < cloud.trouble
  {
    hide Run, Init, GrewFor, GrewAlone;
    Seen(cloud, st, r);
    var answer := RemoveRunner(cloud, r.name);
    e := answer;
    ready, deadline := answer == NoError, None;
    if answer == NoError {
      r.teardown.BeginDeprovisioning();
    } else if answer == JobStillRunning {
      r.busy := true;
      if r.teardown.policy == Cancelable {
        r.teardown := null;
      }
    }
    assert r.Val() == RemovedView(old(r.Val()), e);
    Rewired(cloud, st, r);
    if answer != NoError && r.teardown != null {
      ghost var acts := cloud.acts;
      deadline := Later(cloud, st, RECONCILE_RETRY_DELAY);
      ForAlone(acts, cloud.acts, r.name);
      ForOn(old(cloud.acts), acts, cloud.acts, r.name);
    }
  }

  /** A window has an end, and only a window has one. */
  lemma WindowEnds(cloud: Cloud, st: ReconcileState, r: Runner)
    requires Wired(cloud, st) && Tracks(st, r) && r.teardown != null
    ensures r.teardown.phase == Window <==> r.teardown.removalAfter.Some?
  {
    hide Run, Init;
    Seen(cloud, st, r);
    cloud.Invariant();
    assert LocalInv(cloud.cfg, cloud.sys.g, r.name, At(cloud.sys, r.name));
  }

  /** The window, then the registration. `ready` means the registration is gone. */
  method ReleaseRegistration(cloud: Cloud, st: ReconcileState, r: Runner)
    returns (ready: bool, deadline: Option<Time>, ghost t: Time, ghost clean: bool)
    requires Wired(cloud, st) && Tracks(st, r) && cloud.sys.g.stage == Act && r.teardown != null
    modifies r, r.teardown, cloud
    ensures Wired(cloud, st) && cloud.sys.g.stage == Act && OnwardFor(cloud, r.name)
    ensures r.teardown == null || r.teardown == old(r.teardown)
    ensures old(cloud.now) <= t <= cloud.now
    ensures ready ==> InHand(cloud, st, r) && clean
    ensures ready ==> r.Val() == IssueView(Remove(Removed), old(r.Val()))
    ensures !ready ==> Due(r.Val(), deadline, cloud.now, clean)
    ensures !ready && clean ==> old(r.Val()).teardown.value.phase == Window &&
                                !WindowOver(old(r.Val()).teardown.value, t) && r.Val() == old(r.Val())
    ensures ready && old(r.Val()).teardown.value.phase == Window ==> WindowOver(old(r.Val()).teardown.value, t)
    ensures !clean ==> old(cloud.trouble) < cloud.trouble
    ensures !clean ==> Stuck(old(r.Val()), r.Val(), t)
  {
    hide Run, Init, SysInv, GrewFor, GrewAlone;
    ready, deadline, t, clean := false, None, cloud.now, true;
    var td := r.teardown;
    Seen(cloud, st, r);
    WindowEnds(cloud, st, r);
    ghost var acts := cloud.acts;
    ForNone(acts, r.name);
    if td.phase == Window {
      var now := cloud.Now();
      t := now;
      ForAlone(acts, cloud.acts, r.name);
      if td.removalAfter.Some? && now < td.removalAfter.value {
        deadline := td.removalAfter;
        return;
      }
      acts := cloud.acts;
      Expired(cloud, st, r, now);
      ForOn(old(cloud.acts), acts, cloud.acts, r.name);
      acts := cloud.acts;
    }
    if td.phase == RemovingRegistration {
      ghost var e;
      ready, deadline, e := RemoveRegistration(cloud, st, r);
      ForOn(old(cloud.acts), acts, cloud.acts, r.name);
      if !ready {
        clean := false;
        return;
      }
    }
    ready := true;
  }

  /** The cancellation window has closed. */
  method Expired(cloud: Cloud, st: ReconcileState, r: Runner, now: Time)
    requires Wired(cloud, st) && Tracks(st, r) && cloud.sys.g.stage == Act && now <= cloud.now
    requires r.teardown != null && r.teardown.phase == Window && WindowOver(r.teardown.Val(), now)
    modifies r.teardown, cloud
    ensures Wired(cloud, st) && cloud.sys.g == old(cloud.sys).g && cloud.now == old(cloud.now)
    ensures OnwardFor(cloud, r.name)
    ensures r.teardown.Val() == old(r.teardown.Val()).(phase := RemovingRegistration, removalAfter := None)
  {
    hide Run, Init, GrewFor;
    Seen(cloud, st, r);
    ForOne(cloud.acts, Drive(r.name, Expire(now)), r.name);
    cloud.Advance(r.name, Expire(now));
    r.teardown.BeginRemovingRegistration();
    Rewired(cloud, st, r);
  }

  /** Drives one runner's teardown forward, returning when to drive it again. */
  method Teardown(cloud: Cloud, st: ReconcileState, r: Runner)
    returns (deadline: Option<Time>, ghost t: Time, ghost clean: bool)
    requires Wired(cloud, st) && Tracks(st, r) && cloud.sys.g.stage == Act
    modifies r, r.teardown, cloud
    ensures Wired(cloud, st) && cloud.sys.g.stage == Act && OnwardFor(cloud, r.name)
    ensures r.teardown == null || r.teardown == old(r.teardown)
    ensures Due(r.Val(), deadline, cloud.now, clean)
    ensures old(cloud.now) <= t <= cloud.now
    ensures clean && old(r.teardown) != null ==> r.Val() == IdealPass(old(r.Val()), t)
    ensures old(r.teardown) == null ==> r.Val() == old(r.Val())
    ensures !clean ==> old(cloud.trouble) < cloud.trouble
    ensures clean && old(r.teardown) != null && !Waits(old(r.Val()), t) && MustStop(old(r.Val())) ==>
              ToldToStop(old(cloud.acts), cloud.acts, r.name)
    ensures !clean ==> old(r.teardown) != null && Stuck(old(r.Val()), r.Val(), t)
  {
    hide Run, Init, GrewFor;
    deadline, t, clean := None, cloud.now, true;
    ForNone(cloud.acts, r.name);
    if r.teardown == null {
      return;
    }
    var ready;
    ready, deadline, t, clean := ReleaseRegistration(cloud, st, r);
    if !ready {
      return;
    }
    ghost var acts := cloud.acts;
    deadline, clean := Deprovision(cloud, st, r);
    ForOn(old(cloud.acts), acts, cloud.acts, r.name);
  }
}
