/**
  GitHub and Oxide as the controller meets them: every client call may be preceded by
  any number of moves of the world, and may fail with or without having taken effect.
 */
module Clouds {
  import opened Types
  import opened Protocol
  import opened Invariant
  import opened System

  datatype Reply<+T> = Answer(value: T) | Error
  datatype ImageReply = Image(size: nat) | ImageNotFound | ImageError

  /** The world moved; what the controller knows did not. */
  ghost predicate EnvOnly(s: Sys, r: Sys) {
    r.g.stage == s.g.stage && s.g.now <= r.g.now &&
    forall n :: At(r, n).view == At(s, n).view && At(r, n).note == At(s, n).note
  }

  /** As `EnvOnly`, except for what the controller knows of one name. */
  ghost predicate OneMoved(s: Sys, r: Sys, n: Name) {
    r.g.stage == s.g.stage && s.g.now <= r.g.now &&
    forall m :: m != n ==> At(r, m).view == At(s, m).view && At(r, m).note == At(s, m).note
  }

  /** Actions by which a cycle listens, but touches nothing outside. */
  predicate Passive(a: Action) {
    match a
    case Tick(_) => true
    case World(_, _) => true
    case Cycle(c) => c.ListInstances? || c.ListFailed? || c.ListDisks?
    case Decide(_, d) => d.JobStarted? || d.JobCompleted?
    case _ => false
  }

  /** The history of a process that never restarted. */
  ghost predicate OneProcess(acts: seq<Action>) {
    forall i :: 0 <= i < |acts| ==> acts[i] != Cycle(Restart)
  }

  /** A history goes on. */
  ghost predicate Grew(before: seq<Action>, after: seq<Action>) {
    before <= after
  }

  lemma GrewNone(a: seq<Action>)
    ensures Grew(a, a)
  {
  }

  lemma GrewOn(a: seq<Action>, b: seq<Action>, c: seq<Action>)
    requires Grew(a, b) && Grew(b, c)
    ensures Grew(a, c)
  {
  }

  ghost predicate GrewPassively(before: seq<Action>, after: seq<Action>) {
    before <= after && forall i :: |before| <= i < |after| ==> Passive(after[i])
  }

  lemma PassiveNone(a: seq<Action>)
    ensures GrewPassively(a, a)
  {
  }

  lemma PassiveOn(a: seq<Action>, b: seq<Action>, c: seq<Action>)
    requires GrewPassively(a, b) && GrewPassively(b, c)
    ensures GrewPassively(a, c)
  {
  }

  /** A step of the world, or of the controller about one name. */
  predicate Of(a: Action, n: Name) {
    a.Tick? || (!a.Cycle? && (a.World? || a.n == n))
  }

  /** A history goes on with the world, and the controller busy with one name only. */
  ghost predicate GrewFor(before: seq<Action>, after: seq<Action>, n: Name) {
    before <= after && forall i :: |before| <= i < |after| ==> Of(after[i], n)
  }

  /** A history goes on with the world alone. */
  ghost predicate GrewAlone(before: seq<Action>, after: seq<Action>) {
    before <= after && forall i :: |before| <= i < |after| ==> IsEnv(after[i])
  }

  lemma ForOn(a: seq<Action>, b: seq<Action>, c: seq<Action>, n: Name)
    requires GrewFor(a, b, n) && GrewFor(b, c, n)
    ensures GrewFor(a, c, n)
  {
  }

  lemma ForNone(a: seq<Action>, n: Name)
    ensures GrewFor(a, a, n)
  {
  }

  lemma ForAlone(a: seq<Action>, b: seq<Action>, n: Name)
    requires GrewAlone(a, b)
    ensures GrewFor(a, b, n)
  {
  }

  lemma ForOne(a: seq<Action>, x: Action, n: Name)
    requires Of(x, n)
    ensures GrewFor(a, a + [x], n)
  {
  }

  function Bother(bad: bool): nat {
    if bad then 1 else 0
  }

  function WithInstance(o: Note, owned: bool, i: Option<Instance>): Note {
    o.(listedInstance := if owned then i else None)
  }

  function WithDisk(o: Note, owned: bool, d: Option<Disk>): Note {
    o.(listedDisk := if owned then d else None)
  }

  lemma EnvStep(cfg: Config, s: Sys, a: Action)
    requires IsEnv(a)
    requires if a.Tick? then s.g.now <= a.now else WorldMay(Owned(cfg, a.n), a.w, At(s, a.n).cell)
    ensures Enabled(cfg, s, a) && EnvOnly(s, Apply(cfg, s, a))
    ensures Apply(cfg, s, a).g.now == if a.Tick? then a.now else s.g.now
    ensures forall n :: At(Apply(cfg, s, a), n).cell ==
                        if a.World? && a.n == n then WorldEffect(a.w, At(s, n).cell) else At(s, n).cell
  {
  }

  lemma CanReserve(cfg: Config, s: Sys, names: set<Name>)
    requires s.g.stage == Scale
    requires forall n :: n in names ==> Owned(cfg, n) && !At(s, n).cell.known
    requires names != {} ==> |Backed(s)| + |names| <= cfg.maxRunners
    ensures Enabled(cfg, s, Cycle(StartProvision(names)))
  {
  }

  function ReservedCells(cells: map<Name, Cell>, names: set<Name>): map<Name, Cell> {
    map n | n in cells.Keys + names :: if n in names then EMPTY_CELL.(known := true) else cells[n]
  }

  lemma ReserveCells(cfg: Config, s: Sys, cells: map<Name, Cell>, names: set<Name>)
    requires forall n :: At(s, n).cell == if n in cells then cells[n] else EMPTY_CELL
    requires forall n :: n in names ==> n !in cells
    ensures forall n :: CycleEffect(Owned(cfg, n), StartProvision(names), n, At(s, n)).cell ==
                        if n in ReservedCells(cells, names) then ReservedCells(cells, names)[n] else EMPTY_CELL
  {
  }

  lemma HeardCell(now: Time, d: Decision, l: Local)
    requires DecideMay(now, d, l) && (d.JobStarted? || d.JobCompleted?)
    ensures DecideEffect(now, d, l).cell == l.cell.(known := true)
  {
  }

  function RegisteredCell(c: Cell, ok: bool, fate: Fate, r: Registration): Cell {
    var d := c.(mine := true);
    if ok || fate == Landed then d.(reg := Some(r), regPending := if ok then d.regPending else false)
    else d.(regPending := fate == Pending)
  }

  lemma RegisterMakes(l: Local, ok: bool, fate: Fate, r: Registration)
    ensures var m := ProvideEffect(Register(ok, fate, r), l);
            m.cell == RegisteredCell(l.cell, ok, fate, r) && m.view == l.view &&
            m.note == l.note.(prov := if ok then Registered else Aborted)
  {
  }

  class Cloud {
    const cfg: Config
    var now: Time
    var cells: map<Name, Cell>
    ghost const origin: Sys
    ghost var acts: seq<Action>
    ghost var sys: Sys
    /** How many answers so far were errors, refusals or registrations of another scale set. */
    ghost var trouble: nat
    /** The images asked for, of the project or of the silo, with the answers. */
    ghost var images: seq<(bool, ImageReply)>

    function CellAt(n: Name): Cell
      reads this
    {
      if n in cells then cells[n] else EMPTY_CELL
    }

    /** `sys` is where the legal run `acts` leads, and agrees with the world. */
    ghost predicate Valid()
      reads this
    {
      && ValidConfig(cfg) && Init(cfg, origin)
      && Run(cfg, origin, acts) == Some(sys) && OneProcess(acts)
      && sys.g.now == now
      && forall n :: At(sys, n).cell == CellAt(n)
    }

    constructor (cfg: Config, now: Time, cells: map<Name, Cell>)
      requires ValidConfig(cfg)
      requires forall n :: InitialCell(Owned(cfg, n), if n in cells then cells[n] else EMPTY_CELL)
      ensures Valid() && this.cfg == cfg && this.now == now && this.cells == cells
      ensures sys.g.stage == Idle && forall n :: At(sys, n).view.None? && At(sys, n).note == EMPTY_NOTE
    {
      this.cfg, this.now, this.cells := cfg, now, cells;
      var s := Sys(Globals(now, Idle, 0), map n | n in cells :: Local(cells[n], None, EMPTY_NOTE, []));
      origin, sys, acts, trouble, images := s, s, [], 0, [];
    }

    lemma Invariant()
      requires Valid()
      ensures SysInv(cfg, sys)
    {
      RunInv(cfg, origin, acts);
    }

    /** The controller takes an action that leaves the world alone. */
    ghost method Do(a: Action)
      requires Valid() && Enabled(cfg, sys, a) && !a.Tick? && a != Cycle(Restart)
      requires forall n :: After(cfg, sys.g, a, n, At(sys, n)).cell == CellAt(n)
      modifies this`sys, this`acts
      ensures Valid() && sys == Apply(cfg, old(sys), a) && acts == old(acts) + [a]
    {
      hide Run, Init;
      Extend(cfg, origin, acts, a);
      sys := Apply(cfg, sys, a);
      acts := acts + [a];
    }

    /** A decision about one runner. */
    ghost method Resolve(n: Name, d: Decision)
      requires Valid() && DecideAt(d, sys.g.stage) && DecideMay(now, d, At(sys, n))
      requires d.JobStarted? || d.JobCompleted? ==> At(sys, n).cell.known
      modifies this`sys, this`acts
      ensures Valid() && sys.g == old(sys).g && acts == old(acts) + [Decide(n, d)]
      ensures At(sys, n) == DecideEffect(now, d, At(old(sys), n))
      ensures forall m :: m != n ==> At(sys, m) == At(old(sys), m)
    {
      hide Run, Init;
      OneStep(cfg, sys, Decide(n, d));
      Do(Decide(n, d));
    }

    /** A step of one runner's teardown. */
    ghost method Advance(n: Name, s: TeardownStep)
      requires Valid() && sys.g.stage == Act && DriveMay(cfg, now, s, At(sys, n))
      modifies this`sys, this`acts
      ensures Valid() && sys.g == old(sys).g && acts == old(acts) + [Drive(n, s)]
      ensures At(sys, n) == DriveEffect(cfg, now, s, At(old(sys), n))
      ensures forall m :: m != n ==> At(sys, m) == At(old(sys), m)
    {
      hide Run, Init;
      OneStep(cfg, sys, Drive(n, s));
      Do(Drive(n, s));
    }

    /** The outcome of one provisioning joins the records. */
    ghost method Join(n: Name)
      requires Valid() && sys.g.stage == Provisioning && ProvideMay(cfg, now, Merge(now), At(sys, n))
      modifies this`sys, this`acts
      ensures Valid() && sys.g == old(sys).g && acts == old(acts) + [Provide(n, Merge(now))]
      ensures At(sys, n) == ProvideEffect(Merge(now), At(old(sys), n))
      ensures forall m :: m != n ==> At(sys, m) == At(old(sys), m)
    {
      hide Run, Init;
      OneStep(cfg, sys, Provide(n, Merge(now)));
      Do(Provide(n, Merge(now)));
    }

    /** A message from GitHub about a job of a runner, which may be anyone's. */
    method Hear(n: Name, d: Decision)
      requires Valid() && sys.g.stage == Idle && (d.JobStarted? || (d.JobCompleted? && d.t <= now))
      modifies this
      ensures Valid() && sys.g == old(sys).g && acts == old(acts) + [Decide(n, d)]
      ensures At(sys, n) == DecideEffect(now, d, At(old(sys), n))
      ensures forall m :: m != n ==> At(sys, m) == At(old(sys), m)
      ensures trouble == old(trouble)
    {
      hide Run, Init, DecideEffect;
      OneStep(cfg, sys, Decide(n, d));
      Extend(cfg, origin, acts, Decide(n, d));
      HeardCell(now, d, At(sys, n));
      cells := cells[n := CellAt(n).(known := true)];
      sys := Apply(cfg, sys, Decide(n, d));
      acts := acts + [Decide(n, d)];
    }

    /** A step of the cycle that leaves the world alone. */
    ghost method Step(c: CycleMove)
      requires Valid() && CycleAt(c, sys.g.stage) && (c.Join? || c.BeginTeardowns? || c.Prune? || c.EndCycle?)
      requires c.EndCycle? ==> forall n :: At(sys, n).note.prov == NoProvision
      modifies this`sys, this`acts
      ensures Valid() && acts == old(acts) + [Cycle(c)]
      ensures sys.g == Staged(c, old(sys).g)
      ensures forall n :: At(sys, n) == CycleEffect(Owned(cfg, n), c, n, At(old(sys), n))
    {
      hide Run, Init;
      Do(Cycle(c));
    }

    /** One move of the world. */
    method EnvMove(a: Action)
      requires Valid() && IsEnv(a)
      requires if a.Tick? then now <= a.now else WorldMay(Owned(cfg, a.n), a.w, CellAt(a.n))
      modifies this
      ensures Valid() && EnvOnly(old(sys), sys) && acts == old(acts) + [a]
      ensures a.Tick? ==> now == a.now
      ensures trouble == old(trouble) && images == old(images)
    {
      hide Run, Init, WorldEffect;
      EnvStep(cfg, sys, a);
      Extend(cfg, origin, acts, a);
      if a.Tick? {
        now := a.now;
      } else {
        cells := cells[a.n := WorldEffect(a.w, CellAt(a.n))];
      }
      sys := Apply(cfg, sys, a);
      acts := acts + [a];
    }

    /** Any number of moves of the world. */
    method Interfere()
      requires Valid()
      modifies this
      ensures Valid() && EnvOnly(old(sys), sys)
      ensures GrewPassively(old(acts), acts)
      ensures GrewAlone(old(acts), acts)
      ensures trouble == old(trouble) && images == old(images)
    {
      hide Run, Init;
      var steps: nat := *;
      while steps > 0
        invariant Valid() && EnvOnly(old(sys), sys) && trouble == old(trouble) && images == old(images)
        invariant GrewPassively(old(acts), acts) && GrewAlone(old(acts), acts)
      {
        var a: Action := *;
        if IsEnv(a) && (if a.Tick? then now <= a.now else WorldMay(Owned(cfg, a.n), a.w, CellAt(a.n))) {
          EnvMove(a);
        }
        steps := steps - 1;
      }
    }

    method Now() returns (t: Time)
      requires Valid()
      modifies this
      ensures Valid() && EnvOnly(old(sys), sys) && GrewPassively(old(acts), acts) && t == now == sys.g.now
      ensures GrewAlone(old(acts), acts)
      ensures trouble == old(trouble) && images == old(images)
    {
      hide Run, Init;
      Interfere();
      t := now;
    }

    // ----- GitHub -----

    method GetRunnerByName(n: Name) returns (r: Reply<Option<Registration>>)
      requires Valid()
      modifies this
      ensures Valid() && EnvOnly(old(sys), sys) && GrewPassively(old(acts), acts)
      ensures r.Answer? ==> r.value == At(sys, n).cell.reg
      ensures GrewAlone(old(acts), acts)
      ensures trouble == old(trouble) + Bother(r.Error? || (r.value.Some? && r.value.value.scaleSet != cfg.scaleSet))
    {
      hide Run, Init;
      Interfere();
      var fails: bool := *;
      r := if fails then Error else Answer(CellAt(n).reg);
      trouble := trouble + Bother(r.Error? || (r.value.Some? && r.value.value.scaleSet != cfg.scaleSet));
    }

    /** A mutating call takes effect and is logged. */
    method Ask(n: Name, r: Request, fetched: Option<Registration>)
      requires Valid() && sys.g.stage == Act
      requires IssueMay(r, At(sys, n)) && (r.Remove? ==> fetched == At(sys, n).note.fetched)
      modifies this
      ensures Valid() && acts == old(acts) + [Issue(n, r)] && sys.g == old(sys).g
      ensures At(sys, n) == IssueEffect(r, At(old(sys), n), sys.g.pass)
      ensures forall m :: m != n ==> At(sys, m) == At(old(sys), m)
      ensures trouble == old(trouble)
    {
      hide Run, Init, Entry, IssueView, IssueNote, IssueMay;
      OneStep(cfg, sys, Issue(n, r));
      Extend(cfg, origin, acts, Issue(n, r));
      cells := cells[n := IssueCell(r, CellAt(n), fetched)];
      sys := Apply(cfg, sys, Issue(n, r));
      acts := acts + [Issue(n, r)];
    }

    /** GitHub refuses to remove the runner of a running job; any other failure may
        still have removed it. */
    method RemoveRunner(n: Name, reg: Registration) returns (outcome: Removal)
      requires Valid() && sys.g.stage == Act
      requires InPhase(At(sys, n).view, RemovingRegistration) && At(sys, n).note.fetched == Some(reg)
      modifies this
      ensures Valid() && OneMoved(old(sys), sys, n) && Grew(old(acts), acts)
      ensures At(sys, n).view == Some(IssueView(Remove(outcome), At(old(sys), n).view.value))
      ensures GrewFor(old(acts), acts, n)
      ensures var x := At(sys, n).cell;
              && (outcome == Removed ==> x.reg != Some(reg))
              && (outcome == StillRunning ==> x.reg == Some(reg) && x.job)
              && (x.reg == Some(reg) && x.job ==> outcome == StillRunning || outcome == RemoveFailed(false))
      ensures trouble == old(trouble) + Bother(outcome != Removed)
    {
      hide Run, Init;
      Interfere();
      var here := CellAt(n).reg == Some(reg);
      var fails: bool, took: bool := *, *;
      if here && CellAt(n).job {
        outcome := if fails then RemoveFailed(false) else StillRunning;
      } else {
        outcome := if fails then RemoveFailed(took && here) else Removed;
      }
      Ask(n, Remove(outcome), Some(reg));
      trouble := trouble + Bother(outcome != Removed);
    }

    // ----- Oxide -----

    method InstanceStop(n: Name) returns (ok: bool)
      requires Valid() && sys.g.stage == Act && IssueMay(StopCall(true, true), At(sys, n))
      modifies this
      ensures Valid() && EnvOnly(old(sys), sys) && Grew(old(acts), acts)
      ensures GrewFor(old(acts), acts, n)
      ensures trouble == old(trouble) + Bother(!ok)
      ensures |acts| > |old(acts)| && acts[|acts| - 1].Issue? && acts[|acts| - 1].n == n
      ensures acts[|acts| - 1].r.StopCall? && acts[|acts| - 1].r.ok == ok
    {
      hide Run, Init;
      Interfere();
      var took: bool;
      ok, took := *, *;
      Ask(n, StopCall(ok, took), None);
      trouble := trouble + Bother(!ok);
    }

    /** `ok` covers an instance that was not found. */
    method InstanceDelete(n: Name) returns (ok: bool)
      requires Valid() && sys.g.stage == Act && IssueMay(DeleteInstanceCall(true, true), At(sys, n))
      modifies this
      ensures Valid() && OneMoved(old(sys), sys, n) && Grew(old(acts), acts)
      ensures At(sys, n).view == Some(IssueView(DeleteInstanceCall(ok, true), At(old(sys), n).view.value))
      ensures At(sys, n).note.deletedNow == (ok || At(old(sys), n).note.deletedNow)
      ensures GrewFor(old(acts), acts, n)
      ensures trouble == old(trouble) + Bother(!ok)
    {
      hide Run, Init;
      Interfere();
      var took: bool;
      ok, took := *, *;
      Ask(n, DeleteInstanceCall(ok, took), None);
      trouble := trouble + Bother(!ok);
    }

    method DiskDelete(n: Name) returns (ok: bool)
      requires Valid() && sys.g.stage == Act && IssueMay(DeleteDiskCall(true, true), At(sys, n))
      modifies this
      ensures Valid() && OneMoved(old(sys), sys, n) && Grew(old(acts), acts)
      ensures At(sys, n).view == Some(IssueView(DeleteDiskCall(ok, true), At(old(sys), n).view.value))
      ensures GrewFor(old(acts), acts, n)
      ensures trouble == old(trouble) + Bother(!ok)
    {
      hide Run, Init;
      Interfere();
      var took: bool;
      ok, took := *, *;
      Ask(n, DeleteDiskCall(ok, took), None);
      trouble := trouble + Bother(!ok);
    }

    /** A step of the cycle that concerns every name. */
    method Pass(c: CycleMove, after: map<Name, Cell>)
      requires Valid() && Enabled(cfg, sys, Cycle(c)) && c != Restart
      requires forall n :: CycleEffect(Owned(cfg, n), c, n, At(sys, n)).cell ==
                           if n in after then after[n] else EMPTY_CELL
      modifies this
      ensures Valid() && acts == old(acts) + [Cycle(c)]
      ensures sys.g == Staged(c, old(sys).g)
      ensures forall n :: At(sys, n) == CycleEffect(Owned(cfg, n), c, n, At(old(sys), n))
      ensures trouble == old(trouble)
    {
      hide Run, Init, CycleEffect, CycleMay, Owned;
      Extend(cfg, origin, acts, Cycle(c));
      cells := after;
      sys := Apply(cfg, sys, Cycle(c));
      acts := acts + [Cycle(c)];
    }

    /** All instances of the project, as one snapshot; no create is in flight any more. */
    method InstanceList() returns (r: Reply<map<Name, Instance>>)
      requires Valid() && sys.g.stage == Idle
      modifies this
      ensures Valid() && GrewPassively(old(acts), acts)
      ensures r.Error? ==> EnvOnly(old(sys), sys)
      ensures r.Answer? ==> sys.g.stage == InstancesListed && old(sys).g.now <= sys.g.now
      ensures r.Answer? ==> forall n :: Lookup(r.value, n) == At(sys, n).cell.inst
      ensures r.Answer? ==> forall n :: At(sys, n).view == At(old(sys), n).view
      ensures r.Answer? ==> forall n :: At(sys, n).note == WithInstance(At(old(sys), n).note, Owned(cfg, n),
              Lookup(r.value, n))
      ensures r.Answer? ==> acts != [] && acts[|acts| - 1] == Cycle(ListInstances)
      ensures trouble == old(trouble) + Bother(r.Error?)
    {
      hide Run, Init;
      Interfere();
      var fails: bool := *;
      if fails {
        trouble := trouble + 1;
        return Error;
      }
      CycleStep(cfg, sys, ListInstances);
      r := Answer(map n | n in cells && cells[n].inst.Some? :: cells[n].inst.value);
      Pass(ListInstances, map n | n in cells :: cells[n].(regPending := false, instPending := false));
    }

    method DiskList() returns (r: Reply<map<Name, Disk>>)
      requires Valid() && sys.g.stage == InstancesListed
      modifies this
      ensures Valid() && GrewPassively(old(acts), acts) && old(sys).g.now <= sys.g.now
      ensures forall n :: At(sys, n).view == At(old(sys), n).view
      ensures r.Error? ==> sys.g.stage == Idle
      ensures r.Error? ==> forall n :: At(sys, n).note == At(old(sys), n).note.(listedInstance := None)
      ensures r.Answer? ==> sys.g.stage == Listed && forall n :: Lookup(r.value, n) == At(sys, n).cell.disk
      ensures r.Answer? ==> forall n :: At(sys, n).note == WithDisk(At(old(sys), n).note, Owned(cfg, n),
              Lookup(r.value, n))
      ensures r.Answer? ==> acts != [] && acts[|acts| - 1] == Cycle(ListDisks)
      ensures trouble == old(trouble) + Bother(r.Error?)
    {
      hide Run, Init;
      Interfere();
      var fails: bool := *;
      if fails {
        CycleStep(cfg, sys, ListFailed);
        Pass(ListFailed, cells);
        trouble := trouble + 1;
        r := Error;
      } else {
        var found := DisksNow();
        r := Answer(found);
      }
    }

    method DisksNow() returns (found: map<Name, Disk>)
      requires Valid() && sys.g.stage == InstancesListed
      modifies this
      ensures Valid() && acts == old(acts) + [Cycle(ListDisks)] && sys.g == old(sys).g.(stage := Listed)
      ensures forall n :: Lookup(found, n) == At(sys, n).cell.disk
      ensures forall n :: At(sys, n).view == At(old(sys), n).view
      ensures forall n :: At(sys, n).note == WithDisk(At(old(sys), n).note, Owned(cfg, n), Lookup(found, n))
      ensures trouble == old(trouble)
    {
      hide Run, Init;
      found := map n | n in cells && cells[n].disk.Some? :: cells[n].disk.value;
      CycleStep(cfg, sys, ListDisks);
      Pass(ListDisks, cells);
    }

    /** The configured image of the project, or that of the silo. */
    method ImageView(project: bool) returns (r: ImageReply)
      requires Valid()
      modifies this
      ensures Valid() && EnvOnly(old(sys), sys) && GrewPassively(old(acts), acts)
      ensures trouble == old(trouble) + Bother(!r.Image?)
      ensures images == old(images) + [(project, r)]
    {
      Interfere();
      r := *;
      trouble := trouble + Bother(!r.Image?);
      images := images + [(project, r)];
    }

    // ----- Provisioning -----

    /** A name nobody has used or mentioned; how it is drawn does not matter. */
    method FreshName(taken: set<Name>) returns (n: Name)
      requires Valid()
      ensures Owned(cfg, n) && n !in taken && n !in cells
    {
      n := *;
      if Owned(cfg, n) && n !in taken && n !in cells {
        return;
      }
      var longest: nat := 0;
      var remaining := taken + cells.Keys;
      while remaining != {}
        invariant forall m :: m in (taken + cells.Keys) - remaining ==> |m| <= longest
      {
        var m :| m in remaining;
        remaining := remaining - {m};
        longest := if |m| > longest then |m| else longest;
      }
      n := cfg.prefix + seq(longest + 1, _ => '0');
    }

    method NewRunnerNames(count: nat) returns (names: seq<Name>)
      requires Valid()
      ensures |names| == count && forall i, j :: 0 <= i < j < count ==> names[i] != names[j]
      ensures forall n :: n in names ==> Owned(cfg, n) && n !in cells
    {
      names := [];
      for i := 0 to count
        invariant |names| == i && forall i, j :: 0 <= i < j < |names| ==> names[i] != names[j]
        invariant forall n :: n in names ==> Owned(cfg, n) && n !in cells
      {
        var n := FreshName(set m | m in names);
        names := names + [n];
      }
    }

    /** The names are set aside before any worker starts. */
    method Reserve(names: set<Name>)
      requires Valid() && sys.g.stage == Scale
      requires forall n :: n in names ==> Owned(cfg, n) && n !in cells
      requires names != {} ==> |Backed(sys)| + |names| <= cfg.maxRunners
      modifies this
      ensures Valid() && acts == old(acts) + [Cycle(StartProvision(names))]
      ensures sys.g == old(sys).g.(stage := Provisioning)
      ensures forall n :: At(sys, n) == CycleEffect(Owned(cfg, n), StartProvision(names), n, At(old(sys), n))
      ensures trouble == old(trouble)
    {
      hide Run, Init, Taken, CycleEffect, Owned, ReservedCells;
      CanReserve(cfg, sys, names);
      ReserveCells(cfg, sys, cells, names);
      Pass(StartProvision(names), ReservedCells(cells, names));
    }

    method Grant(n: Name, p: ProvisionStep, c: Cell)
      requires Valid() && sys.g.stage == Provisioning && ProvideMay(cfg, now, p, At(sys, n))
      requires c == ProvideEffect(p, At(sys, n)).cell
      modifies this
      ensures Valid() && acts == old(acts) + [Provide(n, p)] && sys.g == old(sys).g
      ensures At(sys, n) == ProvideEffect(p, At(old(sys), n))
      ensures forall m :: m != n ==> At(sys, m) == At(old(sys), m)
      ensures trouble == old(trouble)
    {
      hide Run, Init, ProvideEffect, ProvideMay;
      OneStep(cfg, sys, Provide(n, p));
      Extend(cfg, origin, acts, Provide(n, p));
      cells := cells[n := c];
      sys := Apply(cfg, sys, Provide(n, p));
      acts := acts + [Provide(n, p)];
    }

    /** A failure may have registered the runner, or may yet do so. */
    method GenerateJitRunnerConfig(n: Name) returns (ok: bool)
      requires Valid() && sys.g.stage == Provisioning && At(sys, n).note.prov == Queued
      modifies this
      ensures Valid() && OneMoved(old(sys), sys, n) && Grew(old(acts), acts)
      ensures At(sys, n).view == At(old(sys), n).view
      ensures At(sys, n).note == At(old(sys), n).note.(prov := if ok then Registered else Aborted)
      ensures trouble == old(trouble) + Bother(!ok)
    {
      hide Run, Init, ProvideEffect, RegisteredCell;
      Interfere();
      var fate: Fate, id: int;
      ok, fate, id := *, *, *;
      var r := Registration(id, cfg.scaleSet);
      RegisterMakes(At(sys, n), ok, fate, r);
      Grant(n, Register(ok, fate, r), RegisteredCell(CellAt(n), ok, fate, r));
      trouble := trouble + Bother(!ok);
    }

    /** A failure may have created the instance, its disk alone, or may yet do so. */
    method InstanceCreate(n: Name) returns (made: Option<Instance>)
      requires Valid() && sys.g.stage == Provisioning && At(sys, n).note.prov == Registered
      modifies this
      ensures Valid() && OneMoved(old(sys), sys, n) && Grew(old(acts), acts)
      ensures At(sys, n).view == At(old(sys), n).view
      ensures At(sys, n).note == At(old(sys), n).note.(prov := if made.Some? then Created(made.value) else Aborted)
      ensures trouble == old(trouble) + Bother(made.None?)
    {
      hide Run, Init;
      Interfere();
      var ok: bool, fate: Fate, whole: bool, i: Instance, d: Disk := *, *, *, *, *;
      i := i.(runState := if i.runState == Destroyed then Creating else i.runState);
      var c := CellAt(n);
      made := if ok then Some(i) else None;
      Grant(n, Create(ok, fate, i, d, whole),
            if ok || fate == Landed then c.(inst := if ok || whole then Some(i) else None, disk := Some(d))
            else c.(instPending := fate == Pending));
      trouble := trouble + Bother(!ok);
    }
  }
}
