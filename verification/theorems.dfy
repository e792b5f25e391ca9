/** What holds over every run of the controller against every world. */
module Theorems {
  import opened Types
  import opened Protocol
  import opened Invariant
  import opened System

  // ----- No running job is ever killed -----

  /** The registration is gone and cannot come back. */
  predicate Retired(owned: bool, l: Local) {
    owned && l.cell.known && !Reachable(l.cell) && l.note.prov == NoProvision
  }

  /** Nothing appears under an owned name but by provisioning: no other action adds a
      registration, an instance or a disk, except by landing one already requested. */
  predicate OnlyTakes(l: Local, m: Local) {
    && (Reachable(m.cell) ==> Reachable(l.cell))
    && (Live(m.cell.inst) || m.cell.instPending ==> Live(l.cell.inst) || l.cell.instPending)
    && (m.cell.disk.Some? ==> l.cell.disk.Some? || l.cell.instPending)
    && (l.cell.known ==> m.cell.known)
    && (m.note.prov == l.note.prov || m.note.prov == NoProvision)
  }

  lemma WorldOnlyTakes(w: WorldMove, l: Local)
    requires WorldMay(true, w, l.cell)
    ensures OnlyTakes(l, l.(cell := WorldEffect(w, l.cell)))
  {
  }

  lemma CycleOnlyTakes(c: CycleMove, n: Name, l: Local)
    requires CycleMay(true, c, n, l) && !(c.StartProvision? && n in c.names)
    ensures OnlyTakes(l, CycleEffect(true, c, n, l))
  {
  }

  lemma DecideOnlyTakes(now: Time, d: Decision, l: Local)
    requires DecideMay(now, d, l)
    ensures OnlyTakes(l, DecideEffect(now, d, l))
  {
  }

  lemma DriveOnlyTakes(cfg: Config, now: Time, s: TeardownStep, l: Local)
    requires DriveMay(cfg, now, s, l)
    ensures OnlyTakes(l, DriveEffect(cfg, now, s, l))
  {
  }

  lemma IssueOnlyTakes(r: Request, l: Local, pass: nat)
    requires IssueMay(r, l)
    ensures OnlyTakes(l, IssueEffect(r, l, pass))
  {
    match r
    case Remove(_) =>
    case StopCall(_, _) =>
    case DeleteInstanceCall(_, _) =>
    case DeleteDiskCall(_, _) =>
  }

  /** The names an action starts to provision. */
  function Provisioned(a: Action): set<Name> {
    if a.Cycle? && a.c.StartProvision? then a.c.names else {}
  }

  lemma ActionOnlyTakes(cfg: Config, g: Globals, a: Action, n: Name, l: Local)
    requires Owned(cfg, n) && Taken(cfg, g, a, n, l) && n !in Provisioned(a) && !(a.Provide? && a.n == n)
    ensures OnlyTakes(l, After(cfg, g, a, n, l))
  {
    match a
    case Tick(_) =>
    case World(m, w) => if m == n { WorldOnlyTakes(w, l); }
    case Cycle(c) => CycleOnlyTakes(c, n, l);
    case Decide(m, d) => if m == n { DecideOnlyTakes(g.now, d, l); }
    case Drive(m, s) => if m == n { DriveOnlyTakes(cfg, g.now, s, l); }
    case Issue(m, r) => if m == n { IssueOnlyTakes(r, l, g.pass); }
    case Provide(_, _) =>
  }

  lemma RetiredLocal(cfg: Config, g: Globals, a: Action, n: Name, l: Local)
    requires Taken(cfg, g, a, n, l) && Retired(Owned(cfg, n), l)
    ensures Retired(Owned(cfg, n), After(cfg, g, a, n, l))
  {
    if n !in Provisioned(a) && !(a.Provide? && a.n == n) {
      ActionOnlyTakes(cfg, g, a, n, l);
    }
  }

  lemma RetiredStep(cfg: Config, s: Sys, a: Action, n: Name)
    requires Enabled(cfg, s, a) && Retired(Owned(cfg, n), At(s, n))
    ensures Retired(Owned(cfg, n), At(Apply(cfg, s, a), n))
  {
    assert Taken(cfg, s.g, a, n, At(s, n));
    RetiredLocal(cfg, s.g, a, n, At(s, n));
  }

  lemma {:induction false} RetiredRun(cfg: Config, s: Sys, acts: seq<Action>, n: Name)
    requires Legal(cfg, s, acts) && Retired(Owned(cfg, n), At(s, n))
    ensures Retired(Owned(cfg, n), At(Exec(cfg, s, acts), n))
  {
    if |acts| > 0 {
      var k := |acts| - 1;
      RetiredRun(cfg, s, acts[..k], n);
      RetiredStep(cfg, Exec(cfg, s, acts[..k]), acts[k], n);
    }
  }

  /** As above, between two moments of one run. */
  lemma StillRetired(cfg: Config, s0: Sys, a: seq<Action>, b: seq<Action>, n: Name)
    requires a <= b && Legal(cfg, s0, a) && Legal(cfg, s0, b) && Retired(Owned(cfg, n), At(Exec(cfg, s0, a), n))
    ensures Retired(Owned(cfg, n), At(Exec(cfg, s0, b), n))
  {
    RunTail(cfg, s0, a, b);
    RetiredRun(cfg, Exec(cfg, s0, a), b[|a|..], n);
  }

  predicate IsDestructive(a: Action) {
    a.Issue? && !a.r.Remove?
  }

  /** Whenever a stop or delete is issued for a name, the name is owned, has no job and
      no registration, and never will have one again, through restarts and failures. */
  lemma NoRunningJobKilled(cfg: Config, s0: Sys, acts: seq<Action>, a: Action, later: seq<Action>)
    requires Init(cfg, s0) && Legal(cfg, s0, acts) && Enabled(cfg, Exec(cfg, s0, acts), a) && IsDestructive(a)
    requires Legal(cfg, Exec(cfg, s0, acts), later)
    ensures Owned(cfg, a.n)
    ensures !At(Exec(cfg, s0, acts), a.n).cell.job && !Reachable(At(Exec(cfg, s0, acts), a.n).cell)
    ensures var end := At(Exec(cfg, Exec(cfg, s0, acts), later), a.n).cell; !end.job && !Reachable(end)
  {
    var s := Exec(cfg, s0, acts);
    RunInv(cfg, s0, acts);
    assert Taken(cfg, s.g, a, a.n, At(s, a.n));
    assert LocalInv(cfg, s.g, a.n, At(s, a.n));
    RetiredRun(cfg, s, later, a.n);
    RunKeeps(cfg, s, later);
    assert LocalInv(cfg, Exec(cfg, s, later).g, a.n, At(Exec(cfg, s, later), a.n));
  }

  // ----- The order of destruction -----

  /** The calls logged for a name over a whole run: each was safe, the successful ones
      are in order, and a disk went only detached or right after its instance. */
  lemma OrderedDestruction(cfg: Config, s0: Sys, acts: seq<Action>, n: Name)
    requires Init(cfg, s0) && Legal(cfg, s0, acts)
    ensures var log := At(Exec(cfg, s0, acts), n).log;
            CallsSafe(cfg, n, log) && CallsOrdered(log) && DiskDeletesJustified(log)
  {
    RunInv(cfg, s0, acts);
    var s := Exec(cfg, s0, acts);
    assert LocalInv(cfg, s.g, n, At(s, n));
  }

  // ----- The hard capacity bound -----

  /** A name that holds, or may yet come to hold, an instance. */
  predicate Commits(owned: bool, l: Local) {
    owned && (Live(l.cell.inst) || l.cell.instPending || l.note.prov == Queued || l.note.prov == Registered)
  }

  ghost function Committed(cfg: Config, s: Sys): set<Name> {
    set n | n in s.locals && Commits(Owned(cfg, n), s.locals[n])
  }

  ghost function LiveOwned(cfg: Config, s: Sys): set<Name> {
    set n | n in s.locals && Owned(cfg, n) && Live(s.locals[n].cell.inst)
  }

  lemma UnionSize<T>(a: set<T>, b: set<T>)
    ensures |a + b| <= |a| + |b|
  {
    assert a + b == a + (b - a);
    SubsetSize(b - a, b);
  }

  lemma CommitLocal(cfg: Config, g: Globals, a: Action, n: Name, l: Local)
    requires Taken(cfg, g, a, n, l) && n !in Provisioned(a)
    requires Commits(Owned(cfg, n), After(cfg, g, a, n, l))
    ensures Commits(Owned(cfg, n), l)
  {
    if Owned(cfg, n) && !(a.Provide? && a.n == n) {
      ActionOnlyTakes(cfg, g, a, n, l);
    }
  }

  /** When provisioning starts, the view covers everything that holds an instance. */
  lemma CommittedBacked(cfg: Config, s: Sys, a: Action)
    requires SysInv(cfg, s) && Enabled(cfg, s, a) && Provisioned(a) != {}
    ensures Committed(cfg, s) <= Backed(s)
  {
    forall n | n in Committed(cfg, s) ensures n in Backed(s) {
      assert Taken(cfg, s.g, a, n, At(s, n));
      assert LocalInv(cfg, s.g, n, At(s, n));
    }
  }

  lemma CommitStep(cfg: Config, s: Sys, a: Action)
    requires SysInv(cfg, s) && Enabled(cfg, s, a)
    ensures |Committed(cfg, Apply(cfg, s, a))| <= Max(cfg.maxRunners, |Committed(cfg, s)|)
  {
    var r := Apply(cfg, s, a);
    forall n | n in Committed(cfg, r) ensures n in Committed(cfg, s) + Provisioned(a) {
      assert At(r, n) == r.locals[n];
      if n !in Provisioned(a) {
        assert Taken(cfg, s.g, a, n, At(s, n));
        CommitLocal(cfg, s.g, a, n, At(s, n));
      }
    }
    if Provisioned(a) != {} {
      CommittedBacked(cfg, s, a);
      SubsetSize(Committed(cfg, r), Backed(s) + Provisioned(a));
      UnionSize(Backed(s), Provisioned(a));
    } else {
      SubsetSize(Committed(cfg, r), Committed(cfg, s));
    }
  }

  lemma {:induction false} CommitRun(cfg: Config, s: Sys, acts: seq<Action>)
    requires SysInv(cfg, s) && Legal(cfg, s, acts)
    ensures |Committed(cfg, Exec(cfg, s, acts))| <= Max(cfg.maxRunners, |Committed(cfg, s)|)
  {
    if |acts| > 0 {
      var k := |acts| - 1;
      CommitRun(cfg, s, acts[..k]);
      RunKeeps(cfg, s, acts[..k]);
      CommitStep(cfg, Exec(cfg, s, acts[..k]), acts[k]);
    }
  }

  /** Live owned instances never exceed the limit, or what was there at the start. */
  lemma CapacityBound(cfg: Config, s0: Sys, acts: seq<Action>)
    requires Init(cfg, s0) && Legal(cfg, s0, acts)
    ensures |LiveOwned(cfg, Exec(cfg, s0, acts))| <= Max(cfg.maxRunners, |Committed(cfg, s0)|)
  {
    RunInv(cfg, s0, []);
    assert Exec(cfg, s0, []) == s0;
    CommitRun(cfg, s0, acts);
    SubsetSize(LiveOwned(cfg, Exec(cfg, s0, acts)), Committed(cfg, Exec(cfg, s0, acts)));
  }

  // ----- Drain -----

  /** Nothing owned is left under a name, nor on its way. */
  predicate Empty(l: Local) {
    !Live(l.cell.inst) && l.cell.disk.None? && !l.cell.instPending && l.note.prov == NoProvision
  }

  ghost predicate Drained(cfg: Config, s: Sys) {
    forall n :: Owned(cfg, n) ==> Empty(At(s, n))
  }

  lemma NothingSeenNothingLeft(cfg: Config, s: Sys)
    requires SysInv(cfg, s) && s.g.stage == Scale && forall n :: At(s, n).view.None?
    ensures Drained(cfg, s)
  {
    forall n | Owned(cfg, n) ensures Empty(At(s, n)) {
      assert LocalInv(cfg, s.g, n, At(s, n));
    }
  }

  lemma EmptyLocal(cfg: Config, g: Globals, a: Action, n: Name, l: Local)
    requires Taken(cfg, g, a, n, l) && n !in Provisioned(a)
    requires Owned(cfg, n) && Empty(l)
    ensures Empty(After(cfg, g, a, n, l))
  {
    if !(a.Provide? && a.n == n) {
      ActionOnlyTakes(cfg, g, a, n, l);
    }
  }

  lemma {:induction false} DrainFinal(cfg: Config, s: Sys, acts: seq<Action>)
    requires Legal(cfg, s, acts) && Drained(cfg, s) && cfg.maxRunners == 0
    ensures Drained(cfg, Exec(cfg, s, acts))
  {
    if |acts| > 0 {
      var k := |acts| - 1;
      var m, a := Exec(cfg, s, acts[..k]), acts[k];
      DrainFinal(cfg, s, acts[..k]);
      forall n | Owned(cfg, n) ensures Empty(At(Apply(cfg, m, a), n)) {
        assert Taken(cfg, m.g, a, n, At(m, n));
        EmptyLocal(cfg, m.g, a, n, At(m, n));
      }
    }
  }

  /** Records left empty after the teardowns of any cycle of any run mean that nothing
      owned is left in the world; with a limit of zero nothing ever will be again. */
  lemma DrainSound(cfg: Config, s0: Sys, acts: seq<Action>, later: seq<Action>)
    requires Init(cfg, s0) && Legal(cfg, s0, acts)
    requires Exec(cfg, s0, acts).g.stage == Scale && forall n :: At(Exec(cfg, s0, acts), n).view.None?
    requires Legal(cfg, Exec(cfg, s0, acts), later)
    ensures Drained(cfg, Exec(cfg, s0, acts))
    ensures cfg.maxRunners == 0 ==> Drained(cfg, Exec(cfg, Exec(cfg, s0, acts), later))
  {
    RunInv(cfg, s0, acts);
    NothingSeenNothingLeft(cfg, Exec(cfg, s0, acts));
    if cfg.maxRunners == 0 {
      DrainFinal(cfg, Exec(cfg, s0, acts), later);
    }
  }

  // ----- Teardown episodes -----

  function Record(l: Local): Option<Teardown> {
    if l.view.Some? then l.view.value.teardown else None
  }

  function PhaseRank(p: Phase): nat {
    match p
    case Window => 0
    case RemovingRegistration => 1
    case Deprovisioning => 2
  }

  /** Progress within one episode. */
  predicate Progresses(t: Teardown, u: Teardown) {
    PhaseRank(t.phase) <= PhaseRank(u.phase) && (t.policy == Permanent ==> u.policy == Permanent)
  }

  predicate JobSignal(a: Action) {
    (a.Decide? && a.d.JobStarted?) || (a.Issue? && a.r == Remove(StillRunning))
  }

  /** Everything one action may do to the teardown of a name. */
  predicate EpisodeStep(a: Action, n: Name, now: Time, l: Local, m: Local) {
    match (Record(l), Record(m))
    case (None, None) => true
    case (None, Some(u)) =>
      if u.policy == Cancelable
      then a == Decide(n, ScaleDown(m.note.markedAt)) && u.phase == Window && l.view.Some? &&
              Candidate(l.view.value, now)
      else u.phase == RemovingRegistration || (a.Decide? && a.d.AuditGone? && u.phase == Deprovisioning &&
              l.cell.reg.None?)
    case (Some(t), Some(u)) => Progresses(t, u)
    case (Some(t), None) =>
      || a == Cycle(Restart)
      || (a.Decide? && a.d.Reclaim? && CanCancelForCapacity(Some(t), a.d.t) && !l.note.tried)
      || (JobSignal(a) && t.policy == Cancelable && t.phase != Deprovisioning)
      || (a == Drive(n, Finish) && t.phase == Deprovisioning && l.view.value.instance.None? && l.view.value.disk.None?)
  }

  lemma EpisodeCycle(cfg: Config, g: Globals, c: CycleMove, n: Name, l: Local)
    requires TeardownInv(g, l) && CycleMay(Owned(cfg, n), c, n, l)
    ensures EpisodeStep(Cycle(c), n, g.now, l, CycleEffect(Owned(cfg, n), c, n, l))
  {
  }

  lemma EpisodeDecide(cfg: Config, g: Globals, d: Decision, n: Name, l: Local)
    requires TeardownInv(g, l) && DecideMay(g.now, d, l)
    ensures EpisodeStep(Decide(n, d), n, g.now, l, DecideEffect(g.now, d, l))
  {
  }

  lemma EpisodeDrive(cfg: Config, g: Globals, s: TeardownStep, n: Name, l: Local)
    requires TeardownInv(g, l) && DriveMay(cfg, g.now, s, l)
    ensures EpisodeStep(Drive(n, s), n, g.now, l, DriveEffect(cfg, g.now, s, l))
  {
  }

  lemma EpisodeIssue(cfg: Config, g: Globals, r: Request, n: Name, l: Local)
    requires TeardownInv(g, l) && IssueMay(r, l)
    ensures EpisodeStep(Issue(n, r), n, g.now, l, IssueEffect(r, l, g.pass))
  {
  }

  lemma EpisodeProvide(cfg: Config, g: Globals, p: ProvisionStep, n: Name, l: Local)
    requires TeardownInv(g, l) && ProvideMay(cfg, g.now, p, l) && l.view.None?
    ensures EpisodeStep(Provide(n, p), n, g.now, l, ProvideEffect(p, l))
  {
  }

  lemma EpisodeLocal(cfg: Config, g: Globals, a: Action, n: Name, l: Local)
    requires Taken(cfg, g, a, n, l) && TeardownInv(g, l) && WorldInv(Owned(cfg, n), g, l)
    ensures EpisodeStep(a, n, g.now, l, After(cfg, g, a, n, l))
  {
    match a
    case Tick(_) =>
    case World(_, _) =>
    case Cycle(c) => EpisodeCycle(cfg, g, c, n, l);
    case Decide(m, d) => if m == n { EpisodeDecide(cfg, g, d, n, l); }
    case Drive(m, s) => if m == n { EpisodeDrive(cfg, g, s, n, l); }
    case Issue(m, r) => if m == n { EpisodeIssue(cfg, g, r, n, l); }
    case Provide(m, p) => if m == n { EpisodeProvide(cfg, g, p, n, l); }
  }

  lemma Episode(cfg: Config, s: Sys, a: Action, n: Name)
    requires SysInv(cfg, s) && Enabled(cfg, s, a)
    ensures EpisodeStep(a, n, s.g.now, At(s, n), At(Apply(cfg, s, a), n))
  {
    assert Taken(cfg, s.g, a, n, At(s, n));
    assert LocalInv(cfg, s.g, n, At(s, n));
    EpisodeLocal(cfg, s.g, a, n, At(s, n));
  }

  /** A permanent teardown is never cancelled: without a restart it only advances, until
      it finishes with nothing left of the runner. */
  lemma {:induction false} PermanentNeverCancelled(cfg: Config, s: Sys, acts: seq<Action>, n: Name)
    requires SysInv(cfg, s) && Legal(cfg, s, acts) && Cycle(Restart) !in acts
    requires Record(At(s, n)).Some? && Record(At(s, n)).value.policy == Permanent
    ensures Drive(n, Finish) in acts ||
            (Record(At(Exec(cfg, s, acts), n)).Some? &&
             Record(At(Exec(cfg, s, acts), n)).value.policy == Permanent &&
             Progresses(Record(At(s, n)).value, Record(At(Exec(cfg, s, acts), n)).value))
  {
    if |acts| > 0 && Drive(n, Finish) !in acts {
      var k := |acts| - 1;
      assert acts == acts[..k] + [acts[k]];
      PermanentNeverCancelled(cfg, s, acts[..k], n);
      RunKeeps(cfg, s, acts[..k]);
      Episode(cfg, Exec(cfg, s, acts[..k]), acts[k], n);
    }
  }

  // ----- What is known of a name in every reachable state -----

  lemma BusyNotPicked(cfg: Config, s: Sys, n: Name, t: Time)
    requires At(s, n).view.Some? && At(s, n).view.value.busy
    ensures !Enabled(cfg, s, Decide(n, ScaleDown(t)))
  {
    assert !Taken(cfg, s.g, Decide(n, ScaleDown(t)), n, At(s, n));
  }

  /** A runner seen busy is in no window and no cancelable removal, and scale-down cannot pick it. */
  lemma BusyProtected(cfg: Config, s0: Sys, acts: seq<Action>, n: Name, t: Time)
    requires Init(cfg, s0) && Legal(cfg, s0, acts)
    requires var v := At(Exec(cfg, s0, acts), n).view; v.Some? && v.value.busy
    ensures var r := Record(At(Exec(cfg, s0, acts), n));
            r.Some? ==> r.value.phase != Window && (r.value.policy == Permanent || r.value.phase == Deprovisioning)
    ensures !Enabled(cfg, Exec(cfg, s0, acts), Decide(n, ScaleDown(t)))
  {
    RunInv(cfg, s0, acts);
    var s := Exec(cfg, s0, acts);
    assert LocalInv(cfg, s.g, n, At(s, n));
    BusyNotPicked(cfg, s, n, t);
  }

  /** A runner GitHub refuses to remove since its job still runs is busy from then on, in no
      window or cancelable removal, and no candidate for scale-down. */
  lemma RefusalProtects(cfg: Config, s0: Sys, acts: seq<Action>, n: Name, t: Time)
    requires Init(cfg, s0) && Legal(cfg, s0, acts + [Issue(n, Remove(StillRunning))])
    ensures var v := At(Exec(cfg, s0, acts + [Issue(n, Remove(StillRunning))]), n).view;
            v.Some? && v.value.busy && !Candidate(v.value, t) &&
            (v.value.teardown.Some? ==> v.value.teardown.value.policy == Permanent)
  {
    var a := Issue(n, Remove(StillRunning));
    assert (acts + [a])[..|acts|] == acts && (acts + [a])[|acts|] == a;
    var s := Exec(cfg, s0, acts);
    RunInv(cfg, s0, acts);
    RunInv(cfg, s0, acts + [a]);
    assert Taken(cfg, s.g, a, n, At(s, n));
    assert LocalInv(cfg, s.g, n, At(s, n));
  }

  /** Nothing makes a busy runner idle again: it stays busy while it is tracked. */
  predicate StaysBusy(a: Action, l: Local, m: Local) {
    l.view.Some? && l.view.value.busy ==>
      if m.view.Some? then m.view.value.busy
      else a == Cycle(Restart) || (a == Cycle(Prune) && l.view.value == EMPTY_VIEW.(busy := true))
  }

  lemma BusyLocal(cfg: Config, g: Globals, a: Action, n: Name, l: Local)
    requires Taken(cfg, g, a, n, l)
    ensures StaysBusy(a, l, After(cfg, g, a, n, l))
  {
    match a
    case Tick(_) =>
    case World(_, _) =>
    case Cycle(_) =>
    case Decide(_, _) =>
    case Drive(_, _) =>
    case Issue(m, r) =>
      if m == n {
        match r
        case Remove(_) =>
        case StopCall(_, _) =>
        case DeleteInstanceCall(_, _) =>
        case DeleteDiskCall(_, _) =>
      }
    case Provide(_, _) =>
  }

  /** A runner seen busy stays busy over the run, unless nothing was left of it and a cycle
      dropped it, or the process restarted. */
  lemma {:induction false} BusyStays(cfg: Config, s: Sys, acts: seq<Action>, n: Name)
    requires Legal(cfg, s, acts) && At(s, n).view.Some? && At(s, n).view.value.busy
    requires forall k :: 0 <= k <= |acts| && Legal(cfg, s, acts[..k]) ==> At(Exec(cfg, s, acts[..k]), n).view.Some?
    ensures At(Exec(cfg, s, acts), n).view.Some? && At(Exec(cfg, s, acts), n).view.value.busy
  {
    assert acts[..|acts|] == acts;
    if |acts| > 0 {
      var k := |acts| - 1;
      forall j | 0 <= j <= k && Legal(cfg, s, acts[..k][..j]) ensures At(Exec(cfg, s, acts[..k][..j]), n).view.Some? {
        assert acts[..k][..j] == acts[..j];
      }
      BusyStays(cfg, s, acts[..k], n);
      var m := Exec(cfg, s, acts[..k]);
      assert Taken(cfg, m.g, acts[k], n, At(m, n));
      BusyLocal(cfg, m.g, acts[k], n, At(m, n));
    }
  }

  /** A reclaimed runner never had its registration touched by the teardown it leaves,
      and a cancelable removal never starts before the delay since marking has passed. */
  lemma ReclaimSafe(cfg: Config, s0: Sys, acts: seq<Action>, a: Action)
    requires Init(cfg, s0) && Legal(cfg, s0, acts) && Enabled(cfg, Exec(cfg, s0, acts), a)
    ensures a.Decide? && a.d.Reclaim? ==> !At(Exec(cfg, s0, acts), a.n).note.tried
    ensures var s := Exec(cfg, s0, acts);
            a.Issue? && a.r.Remove? && HasTeardown(At(s, a.n).view, Cancelable) ==>
              At(s, a.n).note.markedAt + SCALE_DOWN_CANCELLATION_DELAY <= s.g.now
  {
    RunInv(cfg, s0, acts);
    var s := Exec(cfg, s0, acts);
    if a.Decide? || a.Issue? {
      assert LocalInv(cfg, s.g, a.n, At(s, a.n));
      assert Taken(cfg, s.g, a, a.n, At(s, a.n));
    }
  }

  /** The shape of every teardown record ever reached. */
  lemma TeardownShape(cfg: Config, s0: Sys, acts: seq<Action>, n: Name)
    requires Init(cfg, s0) && Legal(cfg, s0, acts)
    ensures var r := Record(At(Exec(cfg, s0, acts), n));
            r.Some? ==> (r.value.removalAfter.Some? <==> r.value.phase == Window) &&
                        (r.value.phase == Window ==> r.value.policy == Cancelable)
  {
    RunInv(cfg, s0, acts);
    var s := Exec(cfg, s0, acts);
    assert LocalInv(cfg, s.g, n, At(s, n));
  }

  /** No orphaned registration: a name this process asked GitHub to register, and that
      may still serve a job, stays tracked unless both its resources were taken away. */
  lemma NoOrphanedRegistration(cfg: Config, s0: Sys, acts: seq<Action>, n: Name)
    requires Init(cfg, s0) && Legal(cfg, s0, acts)
    requires var c := At(Exec(cfg, s0, acts), n).cell; c.mine && Reachable(c) && !(c.lostInstance && c.lostDisk)
    ensures var l := At(Exec(cfg, s0, acts), n);
            l.note.prov != NoProvision || (l.view.Some? && !Gone(l.view.value))
  {
    RunInv(cfg, s0, acts);
    var s := Exec(cfg, s0, acts);
    assert LocalInv(cfg, s.g, n, At(s, n));
  }

  // ----- What a restart loses -----

  /** GitHub tells of a job of the runner. */
  predicate Mentions(a: Action, n: Name) {
    a.Decide? && a.n == n && (a.d.JobStarted? || a.d.JobCompleted?)
  }

  ghost predicate Unmentioned(acts: seq<Action>, n: Name) {
    forall i :: 0 <= i < |acts| ==> !Mentions(acts[i], n)
  }

  /** Neither tracked nor listed, with nothing to be listed now or later. */
  predicate Forgotten(owned: bool, l: Local) {
    && owned && l.cell.known && l.view.None? && l.cell.inst.None? && l.cell.disk.None? && !l.cell.instPending
    && l.note.prov == NoProvision && l.note.listedInstance.None? && l.note.listedDisk.None?
  }

  lemma ForgottenAlone(cfg: Config, g: Globals, a: Action, n: Name, l: Local)
    requires Taken(cfg, g, a, n, l) && Forgotten(Owned(cfg, n), l) && !Mentions(a, n) && !a.World? && !a.Cycle?
    ensures After(cfg, g, a, n, l) == l
  {
  }

  lemma ForgottenLocal(cfg: Config, g: Globals, a: Action, n: Name, l: Local)
    requires Taken(cfg, g, a, n, l) && Forgotten(Owned(cfg, n), l) && !Mentions(a, n)
    ensures Forgotten(Owned(cfg, n), After(cfg, g, a, n, l))
  {
    hide DecideEffect, DriveEffect, IssueEffect, ProvideEffect, DecideMay, DriveMay, IssueMay, ProvideMay;
    if !a.World? && !a.Cycle? {
      ForgottenAlone(cfg, g, a, n, l);
    }
  }

  lemma {:induction false} ForgottenRun(cfg: Config, s: Sys, acts: seq<Action>, n: Name)
    requires Legal(cfg, s, acts) && Unmentioned(acts, n) && Forgotten(Owned(cfg, n), At(s, n))
    ensures Forgotten(Owned(cfg, n), At(Exec(cfg, s, acts), n))
  {
    if |acts| > 0 {
      var k := |acts| - 1;
      ForgottenRun(cfg, s, acts[..k], n);
      var m := Exec(cfg, s, acts[..k]);
      assert Taken(cfg, m.g, acts[k], n, At(m, n));
      ForgottenLocal(cfg, m.g, acts[k], n, At(m, n));
    }
  }

  /** The controller will never track the name again, unless GitHub mentions it. */
  ghost predicate Lost(cfg: Config, s: Sys, n: Name) {
    forall later :: Legal(cfg, s, later) && Unmentioned(later, n) ==> At(Exec(cfg, s, later), n).view.None?
  }

  /** No resource of the name exists or is on its way. */
  predicate Bare(c: Cell) {
    c.inst.None? && c.disk.None? && !c.instPending
  }

  const FIRST_LOOK := [Cycle(ListInstances), Cycle(ListDisks), Cycle(CycleMove.Join)]

  /** A first undisturbed observation tracks exactly the names that have a resource. */
  lemma FirstLook(cfg: Config, s: Sys, n: Name)
    requires s.g.stage == Idle && Owned(cfg, n) && At(s, n).view.None?
    ensures Legal(cfg, s, FIRST_LOOK)
    ensures At(Exec(cfg, s, FIRST_LOOK), n).view.Some? <==> At(s, n).cell.inst.Some? || At(s, n).cell.disk.Some?
  {
    var a, b, c := FIRST_LOOK[0], FIRST_LOOK[1], FIRST_LOOK[2];
    assert Exec(cfg, s, []) == s;
    CycleStep(cfg, s, ListInstances);
    Extend(cfg, s, [], a);
    assert [] + [a] == [a];
    CycleStep(cfg, Exec(cfg, s, [a]), ListDisks);
    Extend(cfg, s, [a], b);
    assert [a] + [b] == [a, b];
    CycleStep(cfg, Exec(cfg, s, [a, b]), CycleMove.Join);
    Extend(cfg, s, [a, b], c);
    assert [a, b] + [c] == FIRST_LOOK;
  }

  /** A resource on its way can land, and then be listed. */
  lemma LandedFound(cfg: Config, s: Sys, n: Name)
    requires s.g.stage == Idle && Owned(cfg, n) && At(s, n).view.None? && At(s, n).cell.instPending
    ensures var acts := [World(n, InstanceLands(None, Some(Disk(Detached, None))))] + FIRST_LOOK;
            Legal(cfg, s, acts) && At(Exec(cfg, s, acts), n).view.Some?
  {
    var land := World(n, InstanceLands(None, Some(Disk(Detached, None))));
    OneStep(cfg, s, land);
    assert Exec(cfg, s, []) == s;
    Extend(cfg, s, [], land);
    assert [] + [land] == [land];
    FirstLook(cfg, Apply(cfg, s, land), n);
    RunOn(cfg, s, [land], FIRST_LOOK);
  }

  /** What is left or still on its way can yet be found. */
  lemma NotBareNotLost(cfg: Config, s: Sys, n: Name)
    requires s.g.stage == Idle && Owned(cfg, n) && At(s, n).view.None? && !Bare(At(s, n).cell)
    ensures !Lost(cfg, s, n)
  {
    hide Run;
    if At(s, n).cell.inst.Some? || At(s, n).cell.disk.Some? {
      FirstLook(cfg, s, n);
      assert Unmentioned(FIRST_LOOK, n);
    } else {
      LandedFound(cfg, s, n);
      assert Unmentioned([World(n, InstanceLands(None, Some(Disk(Detached, None))))] + FIRST_LOOK, n);
    }
  }

  /** Two runs, one after the other, are a run. */
  lemma {:induction false} RunOn(cfg: Config, s: Sys, a: seq<Action>, b: seq<Action>)
    requires Legal(cfg, s, a) && Legal(cfg, Exec(cfg, s, a), b)
    ensures Legal(cfg, s, a + b) && Exec(cfg, s, a + b) == Exec(cfg, Exec(cfg, s, a), b)
    decreases |b|
  {
    if |b| == 0 {
      assert a + b == a;
    } else {
      var k := |b| - 1;
      RunOn(cfg, s, a, b[..k]);
      assert (a + b)[..|a| + k] == a + b[..k] && (a + b)[|a| + k] == b[k];
    }
  }

  /** Of the registrations held at a restart, the controller loses exactly those that have
      no instance and no disk, and none on the way. */
  lemma RestartLosesExactly(cfg: Config, s0: Sys, acts: seq<Action>, n: Name)
    requires Init(cfg, s0) && Legal(cfg, s0, acts + [Cycle(Restart)]) && Owned(cfg, n)
    requires At(Exec(cfg, s0, acts + [Cycle(Restart)]), n).cell.reg.Some?
    ensures var s := Exec(cfg, s0, acts + [Cycle(Restart)]); Lost(cfg, s, n) <==> Bare(At(s, n).cell)
  {
    var s := Exec(cfg, s0, acts + [Cycle(Restart)]);
    RunInv(cfg, s0, acts + [Cycle(Restart)]);
    assert LocalInv(cfg, s.g, n, At(s, n));
    JustRestarted(cfg, s0, acts, n);
    if Bare(At(s, n).cell) {
      forall later | Legal(cfg, s, later) && Unmentioned(later, n) ensures At(Exec(cfg, s, later), n).view.None? {
        ForgottenRun(cfg, s, later, n);
      }
    } else {
      NotBareNotLost(cfg, s, n);
    }
  }

  lemma JustRestarted(cfg: Config, s0: Sys, acts: seq<Action>, n: Name)
    requires Legal(cfg, s0, acts + [Cycle(Restart)])
    ensures var s := Exec(cfg, s0, acts + [Cycle(Restart)]);
            s.g.stage == Idle && At(s, n).view.None? && At(s, n).note == EMPTY_NOTE
  {
    assert (acts + [Cycle(Restart)])[..|acts|] == acts;
  }

  /** So any name queued for provisioning may be registered and then lost. */
  lemma RestartOrphans(cfg: Config, s0: Sys, acts: seq<Action>, n: Name, reg: Registration)
    requires Init(cfg, s0) && Legal(cfg, s0, acts) && Owned(cfg, n) && reg.scaleSet == cfg.scaleSet
    requires var s := Exec(cfg, s0, acts); s.g.stage == Provisioning && At(s, n).note.prov == Queued
    ensures var more := acts + [Provide(n, Register(true, Landed, reg))] + [Cycle(Restart)];
            Legal(cfg, s0, more) && At(Exec(cfg, s0, more), n).cell.reg ==
                    Some(reg) && Lost(cfg, Exec(cfg, s0, more), n)
  {
    var s, a := Exec(cfg, s0, acts), Provide(n, Register(true, Landed, reg));
    RunInv(cfg, s0, acts);
    assert LocalInv(cfg, s.g, n, At(s, n));
    OneStep(cfg, s, a);
    Extend(cfg, s0, acts, a);
    CycleStep(cfg, Exec(cfg, s0, acts + [a]), Restart);
    Extend(cfg, s0, acts + [a], Cycle(Restart));
    RestartLosesExactly(cfg, s0, acts + [a], n);
  }

  // ----- A run that orphans one -----

  /** Nothing anywhere, and nothing going on. */
  const NOTHING := Sys(Globals(0, Idle, 0), map[])

  ghost predicate Blank(s: Sys) {
    forall n :: At(s, n) == EMPTY_LOCAL
  }

  lemma StaysEmpty(cfg: Config, acts: seq<Action>, c: CycleMove)
    requires Legal(cfg, NOTHING, acts) && Blank(Exec(cfg, NOTHING, acts))
    requires CycleAt(c, Exec(cfg, NOTHING, acts).g.stage) && !c.StartProvision? && !c.EndCycle?
    ensures Legal(cfg, NOTHING, acts + [Cycle(c)]) && Blank(Exec(cfg, NOTHING, acts + [Cycle(c)]))
    ensures Exec(cfg, NOTHING, acts + [Cycle(c)]).g.stage == NextStage(c)
  {
    var s, r := Exec(cfg, NOTHING, acts), Exec(cfg, NOTHING, acts + [Cycle(c)]);
    CycleStep(cfg, s, c);
    Extend(cfg, NOTHING, acts, Cycle(c));
    forall n ensures At(r, n) == EMPTY_LOCAL {
      assert Taken(cfg, s.g, Cycle(c), n, At(s, n));
      Untouched(cfg, s.g, Cycle(c), n);
    }
  }

  /** A first cycle of an empty world comes to scale with nothing in its records. */
  lemma ScalesEmpty(cfg: Config) returns (acts: seq<Action>)
    ensures Legal(cfg, NOTHING, acts) && Blank(Exec(cfg, NOTHING, acts))
    ensures Exec(cfg, NOTHING, acts).g.stage == Scale
  {
    hide Run;
    acts := [];
    StartsEmpty(cfg);
    StaysEmpty(cfg, acts, ListInstances);
    acts := acts + [Cycle(ListInstances)];
    StaysEmpty(cfg, acts, ListDisks);
    acts := acts + [Cycle(ListDisks)];
    StaysEmpty(cfg, acts, CycleMove.Join);
    acts := acts + [Cycle(CycleMove.Join)];
    StaysEmpty(cfg, acts, BeginTeardowns);
    acts := acts + [Cycle(BeginTeardowns)];
    StaysEmpty(cfg, acts, Prune);
    acts := acts + [Cycle(Prune)];
  }

  lemma StartsEmpty(cfg: Config)
    ensures Init(cfg, NOTHING) && Legal(cfg, NOTHING, []) && Exec(cfg, NOTHING, []) == NOTHING && Blank(NOTHING)
  {
  }

  /** From an empty world a run comes to queue any owned name. */
  lemma ComesToQueue(cfg: Config, n: Name) returns (acts: seq<Action>)
    requires Owned(cfg, n) && cfg.maxRunners > 0
    ensures Init(cfg, NOTHING) && Legal(cfg, NOTHING, acts)
    ensures var s := Exec(cfg, NOTHING, acts); s.g.stage == Provisioning && At(s, n).note.prov == Queued
  {
    hide Run;
    StartsEmpty(cfg);
    acts := ScalesEmpty(cfg);
    var s, a := Exec(cfg, NOTHING, acts), Cycle(StartProvision({n}));
    assert Backed(s) == {} by {
      forall m ensures m !in Backed(s) {
        assert At(s, m) == EMPTY_LOCAL;
      }
    }
    assert Enabled(cfg, s, a);
    Extend(cfg, NOTHING, acts, a);
    assert At(s, n) == EMPTY_LOCAL;
    acts := acts + [a];
  }

  /** A restart may lose any registration the controller could ask for. */
  lemma RestartMayOrphan(cfg: Config, n: Name, reg: Registration)
    requires Owned(cfg, n) && cfg.maxRunners > 0 && reg.scaleSet == cfg.scaleSet
    ensures exists acts :: Legal(cfg, NOTHING, acts) && At(Exec(cfg, NOTHING, acts), n).cell.reg == Some(reg) &&
                           Lost(cfg, Exec(cfg, NOTHING, acts), n)
  {
    hide Run, Init, Lost;
    var acts := ComesToQueue(cfg, n);
    RestartOrphans(cfg, NOTHING, acts, n, reg);
    var more := acts + [Provide(n, Register(true, Landed, reg))] + [Cycle(Restart)];
    assert Legal(cfg, NOTHING, more);
  }
}
