/** What stays true of every name, whatever either side does next. */
module Invariant {
  import opened Types
  import opened Protocol

  predicate Destructive(c: Call) {
    !c.Deregister?
  }

  /** The place of a call in the fixed order of destruction. */
  function CallRank(c: Call): nat {
    match c
    case Deregister(_, _) => 0
    case Stop(_, _, _) => 1
    case DeleteInstance(_, _, _, _) => 2
    case DeleteDisk(_, _, _, _, _) => 3
  }

  /** Every call was safe to issue when it was issued. */
  ghost predicate CallsSafe(cfg: Config, n: Name, log: seq<Call>) {
    forall i :: 0 <= i < |log| ==>
      match log[i]
      case Deregister(_, ss) => ss == cfg.scaleSet
      case Stop(_, registered, job) => !registered && !job && Owned(cfg, n)
      case DeleteInstance(_, registered, job, _) => !registered && !job && Owned(cfg, n)
      case DeleteDisk(_, registered, job, _, _) => !registered && !job && Owned(cfg, n)
  }

  /** The successful calls appear in the order of destruction. */
  ghost predicate CallsOrdered(log: seq<Call>) {
    forall i, j :: 0 <= i < j < |log| && log[i].ok && log[j].ok ==> CallRank(log[i]) <= CallRank(log[j])
  }

  /** A disk last seen neither detached nor faulted is deleted only right after its instance
      was, in the same pass. */
  ghost predicate DiskDeletesJustified(log: seq<Call>) {
    forall i :: 0 <= i < |log| && log[i].DeleteDisk? && log[i].seen != Detached && log[i].seen != Faulted ==>
      0 < i && DeletedIn(log[i - 1], log[i].pass)
  }

  predicate DeletedIn(c: Call, pass: nat) {
    c.DeleteInstance? && c.ok && c.pass == pass
  }

  ghost predicate AnyDestructive(log: seq<Call>) {
    exists i :: 0 <= i < |log| && Destructive(log[i])
  }

  ghost predicate AnyDeleted(log: seq<Call>) {
    exists i :: 0 <= i < |log| && log[i].ok && CallRank(log[i]) >= 2
  }

  /** The registration can still serve a job, now or once a request in flight lands. */
  predicate Reachable(c: Cell) {
    c.reg.Some? || c.regPending
  }

  predicate Observed(s: Stage) {
    s == Plan || s == Act || s == Scale
  }

  predicate WorldInv(owned: bool, g: Globals, l: Local) {
    && (l.cell.job ==> l.cell.reg.Some?)
    && (l.cell.mine ==> owned)
    && (owned && !l.cell.known ==>
          l.cell == EMPTY_CELL && l.log == [] && l.view.None? && l.note.prov == NoProvision && l.note.fetched.None? &&
          l.note.listedInstance.None? && l.note.listedDisk.None?)
    && (l.cell.regPending || l.cell.instPending ==> owned && (g.stage == Idle || g.stage == Provisioning))
    && (l.note.prov != NoProvision ==> owned && l.view.None? && g.stage == Provisioning)
    && (l.note.prov == Queued ==> !Reachable(l.cell) && l.cell.inst.None? && l.cell.disk.None? && !l.cell.instPending)
    && (l.note.prov == Queued || l.note.prov == Registered || l.note.prov.Created? ==> l.log == [])
  }

  predicate TeardownInv(g: Globals, l: Local) {
    l.view.Some? && l.view.value.teardown.Some? ==>
      var t := l.view.value.teardown.value;
      && (t.phase == Window <==> t.removalAfter.Some?)
      && (t.phase == Window ==>
            (t.policy == Cancelable && !l.note.tried &&
             t.removalAfter.value == l.note.markedAt + SCALE_DOWN_CANCELLATION_DELAY))
      && (t.policy == Cancelable && t.phase != Window ==> l.note.markedAt + SCALE_DOWN_CANCELLATION_DELAY <= g.now)
      && l.note.markedAt <= g.now
      && (l.view.value.busy ==> t.policy == Permanent || t.phase == Deprovisioning)
  }

  predicate OwnershipInv(owned: bool, g: Globals, l: Local) {
    && (l.view.Some? && (l.view.value.instance.Some? || l.view.value.disk.Some?) ==> owned)
    && (l.note.listedInstance.Some? ==> owned && (g.stage == InstancesListed || g.stage == Listed))
    && (l.note.listedDisk.Some? ==> owned && g.stage == Listed)
    && (InPhase(l.view, Deprovisioning) ==> l.note.fetched.None?)
    && (owned && l.note.fetched.Some? && g.stage == Act ==> l.cell.reg.None? || l.cell.reg == l.note.fetched)
  }

  predicate GoneForever(owned: bool, l: Local) {
    owned && InPhase(l.view, Deprovisioning) ==> !Reachable(l.cell)
  }

  /** The view covers the world between the listing and the end of the teardowns. */
  predicate CoverInv(owned: bool, g: Globals, l: Local) {
    && (owned && g.stage == InstancesListed ==> (l.cell.inst.Some? ==> l.note.listedInstance.Some?))
    && (owned && g.stage == Listed ==> (l.cell.inst.Some? ==> l.note.listedInstance.Some?) &&
                                       (l.cell.disk.Some? ==> l.note.listedDisk.Some?))
    && (owned && Observed(g.stage) ==>
          (l.cell.disk.Some? ==> l.view.Some? && l.view.value.disk.Some?) &&
          (l.cell.inst.Some? && (Live(l.cell.inst) || Reachable(l.cell)) ==>
             l.view.Some? && l.view.value.instance.Some?))
    && (Live(l.cell.inst) && l.note.listedInstance.Some? && (g.stage == InstancesListed || g.stage == Listed) ==>
          Live(l.note.listedInstance))
    && (owned && Observed(g.stage) && Live(l.cell.inst) ==> l.view.Some? && Live(l.view.value.instance))
  }

  ghost predicate LogInv(cfg: Config, n: Name, g: Globals, l: Local) {
    && CallsSafe(cfg, n, l.log)
    && CallsOrdered(l.log)
    && DiskDeletesJustified(l.log)
    && (AnyDestructive(l.log) ==> !Reachable(l.cell) && l.note.fetched.None? && l.note.prov == NoProvision)
    && (AnyDeleted(l.log) ==>
          && !Live(l.cell.inst) && !l.cell.instPending
          && (l.view.Some? ==> !Live(l.view.value.instance))
          && !Live(l.note.listedInstance))
    && (l.note.deletedNow ==> l.log != [] && DeletedIn(l.log[|l.log| - 1], g.pass))
    && (l.note.fetched.Some? ==> l.note.fetched.value.scaleSet == cfg.scaleSet)
  }

  /** A name this process registered keeps its resources, or a permanent teardown,
      until the registration is gone; so it stays tracked. */
  predicate OrphanInv(owned: bool, g: Globals, l: Local) {
    && (l.cell.mine && l.cell.instPending ==> l.note.prov == Aborted || HasTeardown(l.view, Permanent))
    && (l.cell.mine && Reachable(l.cell) && !(l.cell.lostInstance && l.cell.lostDisk) ==>
      && (l.note.prov == Registered || l.note.prov == Aborted || HasTeardown(l.view, Permanent) ||
          ((l.cell.inst.Some? || l.cell.lostInstance) && (l.cell.disk.Some? || l.cell.lostDisk)))
      && (l.note.prov == NoProvision ==>
            HasTeardown(l.view, Permanent) ||
            (l.view.Some? && (l.view.value.instance.Some? || l.view.value.disk.Some?))))
  }

  ghost predicate LocalInv(cfg: Config, g: Globals, n: Name, l: Local) {
    && WorldInv(Owned(cfg, n), g, l)
    && TeardownInv(g, l)
    && OwnershipInv(Owned(cfg, n), g, l)
    && GoneForever(Owned(cfg, n), l)
    && CoverInv(Owned(cfg, n), g, l)
    && LogInv(cfg, n, g, l)
    && OrphanInv(Owned(cfg, n), g, l)
  }

  lemma LogGrows(cfg: Config, n: Name, log: seq<Call>, c: Call)
    requires CallsSafe(cfg, n, log) && CallsSafe(cfg, n, [c])
    requires CallsOrdered(log) && DiskDeletesJustified(log)
    requires c.ok && CallRank(c) == 0 ==> !AnyDestructive(log)
    requires c.ok && CallRank(c) < 3 ==> !AnyDeleted(log)
    requires c.DeleteDisk? && c.seen != Detached && c.seen != Faulted ==>
               log != [] && DeletedIn(log[|log| - 1], c.pass)
    ensures CallsSafe(cfg, n, log + [c]) && CallsOrdered(log + [c]) && DiskDeletesJustified(log + [c])
    ensures AnyDestructive(log + [c]) <==> AnyDestructive(log) || Destructive(c)
    ensures AnyDeleted(log + [c]) <==> AnyDeleted(log) || (c.ok && CallRank(c) >= 2)
  {
    var m := log + [c];
    assert [c][0] == c && m[|log|] == c;
    assert forall i :: 0 <= i < |log| ==> m[i] == log[i];
    forall i | 0 <= i < |log| && log[i].ok && c.ok ensures CallRank(log[i]) <= CallRank(c) {
      if CallRank(c) == 0 { assert !Destructive(log[i]); }
    }
  }

  lemma WorldKeeps(cfg: Config, g: Globals, w: WorldMove, n: Name, l: Local)
    requires LocalInv(cfg, g, n, l) && WorldMay(Owned(cfg, n), w, l.cell)
    ensures LocalInv(cfg, g, n, l.(cell := WorldEffect(w, l.cell)))
  {
  }

  lemma GatherKeeps(cfg: Config, g: Globals, c: CycleMove, n: Name, l: Local)
    requires LocalInv(cfg, g, n, l) && CycleAt(c, g.stage) && CycleMay(Owned(cfg, n), c, n, l)
    requires c.ListInstances? || c.ListFailed? || c.ListDisks? || c.Join?
    ensures LocalInv(cfg, Staged(c, g), n, CycleEffect(Owned(cfg, n), c, n, l))
  {
    hide CallsSafe, CallsOrdered, DiskDeletesJustified, AnyDestructive, AnyDeleted;
  }

  lemma PassKeeps(cfg: Config, g: Globals, c: CycleMove, n: Name, l: Local)
    requires LocalInv(cfg, g, n, l) && CycleAt(c, g.stage) && CycleMay(Owned(cfg, n), c, n, l)
    requires c.BeginTeardowns? || c.Prune? || c.EndCycle?
    ensures LocalInv(cfg, Staged(c, g), n, CycleEffect(Owned(cfg, n), c, n, l))
  {
    hide CallsSafe, CallsOrdered, DiskDeletesJustified, AnyDestructive, AnyDeleted;
  }

  lemma BeginKeeps(cfg: Config, g: Globals, c: CycleMove, n: Name, l: Local)
    requires LocalInv(cfg, g, n, l) && CycleAt(c, g.stage) && CycleMay(Owned(cfg, n), c, n, l)
    requires c.StartProvision? || c.Restart?
    ensures LocalInv(cfg, Staged(c, g), n, CycleEffect(Owned(cfg, n), c, n, l))
  {
  }

  lemma JobKeeps(cfg: Config, g: Globals, d: Decision, n: Name, l: Local)
    requires LocalInv(cfg, g, n, l) && DecideAt(d, g.stage) && DecideMay(g.now, d, l)
    requires d.JobStarted? || d.JobCompleted?
    ensures LocalInv(cfg, g, n, DecideEffect(g.now, d, l))
  {
    hide CallsSafe, CallsOrdered, DiskDeletesJustified, AnyDestructive, AnyDeleted;
  }

  lemma CondemnKeeps(cfg: Config, g: Globals, d: Decision, n: Name, l: Local)
    requires LocalInv(cfg, g, n, l) && DecideAt(d, g.stage) && DecideMay(g.now, d, l)
    requires d.MarkPermanent? || d.AuditGone?
    ensures LocalInv(cfg, g, n, DecideEffect(g.now, d, l))
  {
    hide CallsSafe, CallsOrdered, DiskDeletesJustified, AnyDestructive, AnyDeleted;
  }

  lemma CapacityKeeps(cfg: Config, g: Globals, d: Decision, n: Name, l: Local)
    requires LocalInv(cfg, g, n, l) && DecideAt(d, g.stage) && DecideMay(g.now, d, l)
    requires d.Reclaim? || d.ScaleDown?
    ensures LocalInv(cfg, g, n, DecideEffect(g.now, d, l))
  {
    hide CallsSafe, CallsOrdered, DiskDeletesJustified, AnyDestructive, AnyDeleted;
  }

  lemma DecideKeeps(cfg: Config, g: Globals, d: Decision, n: Name, l: Local)
    requires LocalInv(cfg, g, n, l) && DecideAt(d, g.stage) && DecideMay(g.now, d, l)
    ensures LocalInv(cfg, g, n, DecideEffect(g.now, d, l))
  {
    hide LocalInv, DecideEffect;
    if d.JobStarted? || d.JobCompleted? {
      JobKeeps(cfg, g, d, n, l);
    } else if d.MarkPermanent? || d.AuditGone? {
      CondemnKeeps(cfg, g, d, n, l);
    } else {
      CapacityKeeps(cfg, g, d, n, l);
    }
  }

  lemma DriveKeeps(cfg: Config, g: Globals, s: TeardownStep, n: Name, l: Local)
    requires LocalInv(cfg, g, n, l) && g.stage == Act && DriveMay(cfg, g.now, s, l)
    ensures LocalInv(cfg, g, n, DriveEffect(cfg, g.now, s, l))
  {
    hide CallsSafe, CallsOrdered, DiskDeletesJustified, AnyDestructive, AnyDeleted;
  }

  lemma RemoveKeeps(cfg: Config, g: Globals, r: Request, n: Name, l: Local)
    requires LocalInv(cfg, g, n, l) && g.stage == Act && IssueMay(r, l)
    requires r.Remove?
    ensures LocalInv(cfg, g, n, IssueEffect(r, l, g.pass))
  {
    LogGrows(cfg, n, l.log, Entry(r, l, g.pass));
  }

  lemma StopKeeps(cfg: Config, g: Globals, r: Request, n: Name, l: Local)
    requires LocalInv(cfg, g, n, l) && g.stage == Act && IssueMay(r, l)
    requires r.StopCall?
    ensures LocalInv(cfg, g, n, IssueEffect(r, l, g.pass))
  {
    LogGrows(cfg, n, l.log, Entry(r, l, g.pass));
  }

  lemma DeleteKeeps(cfg: Config, g: Globals, r: Request, n: Name, l: Local)
    requires LocalInv(cfg, g, n, l) && g.stage == Act && IssueMay(r, l)
    requires r.DeleteInstanceCall?
    ensures LocalInv(cfg, g, n, IssueEffect(r, l, g.pass))
  {
    LogGrows(cfg, n, l.log, Entry(r, l, g.pass));
  }

  lemma DeleteDiskKeeps(cfg: Config, g: Globals, r: Request, n: Name, l: Local)
    requires LocalInv(cfg, g, n, l) && g.stage == Act && IssueMay(r, l)
    requires r.DeleteDiskCall?
    ensures LocalInv(cfg, g, n, IssueEffect(r, l, g.pass))
  {
    LogGrows(cfg, n, l.log, Entry(r, l, g.pass));
  }

  lemma IssueKeeps(cfg: Config, g: Globals, r: Request, n: Name, l: Local)
    requires LocalInv(cfg, g, n, l) && g.stage == Act && IssueMay(r, l)
    ensures LocalInv(cfg, g, n, IssueEffect(r, l, g.pass))
  {
    match r
    case Remove(_) => RemoveKeeps(cfg, g, r, n, l);
    case StopCall(_, _) => StopKeeps(cfg, g, r, n, l);
    case DeleteInstanceCall(_, _) => DeleteKeeps(cfg, g, r, n, l);
    case DeleteDiskCall(_, _) => DeleteDiskKeeps(cfg, g, r, n, l);
  }

  lemma RegisterKeeps(cfg: Config, g: Globals, p: ProvisionStep, n: Name, l: Local)
    requires LocalInv(cfg, g, n, l) && g.stage == Provisioning && ProvideMay(cfg, g.now, p, l)
    requires p.Register?
    ensures LocalInv(cfg, g, n, ProvideEffect(p, l))
  {
  }

  lemma CreateKeeps(cfg: Config, g: Globals, p: ProvisionStep, n: Name, l: Local)
    requires LocalInv(cfg, g, n, l) && g.stage == Provisioning && ProvideMay(cfg, g.now, p, l)
    requires p.Create?
    ensures LocalInv(cfg, g, n, ProvideEffect(p, l))
  {
  }

  lemma MergeKeeps(cfg: Config, g: Globals, p: ProvisionStep, n: Name, l: Local)
    requires LocalInv(cfg, g, n, l) && g.stage == Provisioning && ProvideMay(cfg, g.now, p, l)
    requires p.Merge?
    ensures LocalInv(cfg, g, n, ProvideEffect(p, l))
  {
  }

  lemma CycleKeeps(cfg: Config, g: Globals, c: CycleMove, n: Name, l: Local)
    requires LocalInv(cfg, g, n, l) && CycleAt(c, g.stage) && CycleMay(Owned(cfg, n), c, n, l)
    ensures LocalInv(cfg, Staged(c, g), n, CycleEffect(Owned(cfg, n), c, n, l))
  {
    if c.ListInstances? || c.ListFailed? || c.ListDisks? || c.Join? {
      GatherKeeps(cfg, g, c, n, l);
    } else if c.StartProvision? || c.Restart? {
      BeginKeeps(cfg, g, c, n, l);
    } else {
      PassKeeps(cfg, g, c, n, l);
    }
  }

  lemma ProvideKeeps(cfg: Config, g: Globals, p: ProvisionStep, n: Name, l: Local)
    requires LocalInv(cfg, g, n, l) && g.stage == Provisioning && ProvideMay(cfg, g.now, p, l)
    ensures LocalInv(cfg, g, n, ProvideEffect(p, l))
  {
    match p
    case Register(_, _, _) => RegisterKeeps(cfg, g, p, n, l);
    case Create(_, _, _, _, _) => CreateKeeps(cfg, g, p, n, l);
    case Merge(_) => MergeKeeps(cfg, g, p, n, l);
  }

  /** Every action keeps the invariant of every name. */
  lemma ActionKeeps(cfg: Config, g: Globals, a: Action, n: Name, l: Local)
    requires LocalInv(cfg, g, n, l) && Taken(cfg, g, a, n, l)
    ensures LocalInv(cfg, Advance(a, g), n, After(cfg, g, a, n, l))
  {
    match a
    case Tick(t) =>
    case Cycle(c) => CycleKeeps(cfg, g, c, n, l);
    case World(m, w) => if m == n { WorldKeeps(cfg, g, w, n, l); }
    case Decide(m, d) => if m == n { DecideKeeps(cfg, g, d, n, l); }
    case Drive(m, s) => if m == n { DriveKeeps(cfg, g, s, n, l); }
    case Issue(m, r) => if m == n { IssueKeeps(cfg, g, r, n, l); }
    case Provide(m, p) => if m == n { ProvideKeeps(cfg, g, p, n, l); }
  }
}
