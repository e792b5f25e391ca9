/**
  The life of one runner name, seen from both sides: what GitHub and Oxide hold for
  it, what the controller believes about it, and every atomic action of either side.
  Each client call is one action, so the world may move between any two calls.
 */
module Protocol {
  import opened Types

  /** The mutating calls issued for a name, with what was true when each was issued. */
  datatype Call =
    | Deregister(ok: bool, scaleSet: int)
    | Stop(ok: bool, registered: bool, job: bool)
    | DeleteInstance(ok: bool, registered: bool, job: bool, pass: nat)
    | DeleteDisk(ok: bool, registered: bool, job: bool, seen: DiskState, pass: nat)

  /** One name in the world. `known` says the name was ever used or mentioned;
      `mine` that the present controller process asked GitHub to register it;
      `lostInstance` and `lostDisk` that someone else removed the resource. */
  datatype Cell = Cell(
    known: bool,
    reg: Option<Registration>, job: bool, regPending: bool,
    inst: Option<Instance>, disk: Option<Disk>, instPending: bool,
    mine: bool, lostInstance: bool, lostDisk: bool)

  datatype Provision = NoProvision | Queued | Registered | Aborted | Created(instance: Instance)

  /** The local variables of the running cycle that concern one name, and two
      facts about its present teardown: when it began and whether removal was tried. */
  datatype Note = Note(
    listedInstance: Option<Instance>, listedDisk: Option<Disk>,
    fetched: Option<Registration>, deletedNow: bool,
    prov: Provision, tried: bool, markedAt: Time)

  /** Everything about one name; `log` is the history of the mutating calls for it. */
  datatype Local = Local(cell: Cell, view: Option<View>, note: Note, log: seq<Call>)

  const EMPTY_CELL := Cell(false, None, false, false, None, None, false, false, false, false)
  const EMPTY_NOTE := Note(None, None, None, false, NoProvision, false, 0)
  const EMPTY_LOCAL := Local(EMPTY_CELL, None, EMPTY_NOTE, [])

  /** Where the reconcile cycle stands. */
  datatype Stage = Idle | InstancesListed | Listed | Plan | Act | Scale | Provisioning

  /** The clock, the stage, and how many passes of teardowns have begun. */
  datatype Globals = Globals(now: Time, stage: Stage, pass: nat)

  /** How an ambiguous failure ended in the world. */
  datatype Fate = Lost | Landed | Pending

  datatype Removal = Removed | StillRunning | RemoveFailed(took: bool)

  /** What the world does on its own to one name. */
  datatype WorldMove =
    | JobAssigned
    | JobFinished
    | RegistrationDropped
    | ForeignRegistration(reg: Registration)
    | InstanceChanged(inst: Option<Instance>)
    | DiskChanged(disk: Option<Disk>)
    | RegistrationLands(landed: Registration)
    | InstanceLands(instLanded: Option<Instance>, diskLanded: Option<Disk>)

  /** The steps of a cycle that concern every name at once. */
  datatype CycleMove =
    | ListInstances | ListFailed | ListDisks | Join | BeginTeardowns | Prune
    | StartProvision(names: set<Name>) | EndCycle | Restart

  /** What the controller decides about one runner. */
  datatype Decision =
    | JobStarted
    | JobCompleted(t: Time)
    | MarkPermanent(t: Time)
    | AuditGone(t: Time)
    | Reclaim(t: Time)
    | ScaleDown(t: Time)

  /** A step of one runner's teardown that asks nothing of the outside. */
  datatype TeardownStep = Expire(t: Time) | Fetch(reg: Registration) | ConfirmGone | ForgetDestroyed | Finish

  /** A step of one runner's teardown that is a mutating call, with its outcome. */
  datatype Request =
    | Remove(outcome: Removal)
    | StopCall(ok: bool, took: bool)
    | DeleteInstanceCall(ok: bool, took: bool)
    | DeleteDiskCall(ok: bool, took: bool)

  /** One atomic step of provisioning one runner. */
  datatype ProvisionStep =
    | Register(ok: bool, fate: Fate, reg: Registration)
    | Create(ok: bool, fate: Fate, inst: Instance, disk: Disk, whole: bool)
    | Merge(t: Time)

  datatype Action =
    | Tick(now: Time)
    | World(n: Name, w: WorldMove)
    | Cycle(c: CycleMove)
    | Decide(n: Name, d: Decision)
    | Drive(n: Name, s: TeardownStep)
    | Issue(n: Name, r: Request)
    | Provide(n: Name, p: ProvisionStep)

  predicate IsEnv(a: Action) {
    a.Tick? || a.World?
  }

  // ----- The world -----

  /** What the world may do to a cell. Instances are created only by landing, and a
      destroyed one never comes back; a job runs only on a live registration; nobody
      else creates anything under an owned name. */
  predicate WorldMay(owned: bool, w: WorldMove, c: Cell) {
    match w
    case JobAssigned => c.reg.Some?
    case JobFinished => true
    case RegistrationDropped => !c.job
    case ForeignRegistration(_) => !owned
    case InstanceChanged(i) => owned ==> c.inst.Some? && (Live(i) ==> Live(c.inst))
    case DiskChanged(d) => owned ==> c.disk.Some?
    case RegistrationLands(_) => c.regPending
    case InstanceLands(_, _) => c.instPending
  }

  function WorldEffect(w: WorldMove, c: Cell): Cell {
    match w
    case JobAssigned => c.(job := true)
    case JobFinished => c.(job := false)
    case RegistrationDropped => c.(reg := None)
    case ForeignRegistration(r) => c.(reg := Some(r))
    case InstanceChanged(i) => c.(inst := i, lostInstance := c.lostInstance || i.None?)
    case DiskChanged(d) => c.(disk := d, lostDisk := c.lostDisk || d.None?)
    case RegistrationLands(r) => c.(reg := Some(r), regPending := false)
    case InstanceLands(i, d) => c.(inst := i, disk := d, instPending := false)
  }

  // ----- The steps of a cycle -----

  predicate CycleAt(c: CycleMove, s: Stage) {
    match c
    case ListInstances => s == Idle
    case ListFailed => s == InstancesListed
    case ListDisks => s == InstancesListed
    case Join => s == Listed
    case BeginTeardowns => s == Plan
    case Prune => s == Act
    case StartProvision(_) => s == Scale
    case EndCycle => s == Scale || s == Provisioning
    case Restart => true
  }

  function NextStage(c: CycleMove): Stage {
    match c
    case ListInstances => InstancesListed
    case ListFailed => Idle
    case ListDisks => Listed
    case Join => Plan
    case BeginTeardowns => Act
    case Prune => Scale
    case StartProvision(_) => Provisioning
    case EndCycle => Idle
    case Restart => Idle
  }

  function Staged(c: CycleMove, g: Globals): Globals {
    g.(stage := NextStage(c), pass := if c.BeginTeardowns? then g.pass + 1 else g.pass)
  }

  predicate CycleMay(owned: bool, c: CycleMove, n: Name, l: Local) {
    match c
    case StartProvision(names) => n in names ==> !l.cell.known && owned
    case EndCycle => l.note.prov == NoProvision
    case _ => true
  }

  function JoinedView(v: Option<View>, i: Option<Instance>, d: Option<Disk>): Option<View> {
    if v.Some? then Some(v.value.(instance := i, disk := d))
    else if i.Some? || d.Some? then Some(EMPTY_VIEW.(instance := i, disk := d))
    else None
  }

  function CycleEffect(owned: bool, c: CycleMove, n: Name, l: Local): Local {
    match c
    case ListInstances =>
      Local(l.cell.(regPending := false, instPending := false), l.view,
            l.note.(listedInstance := if owned then l.cell.inst else None), l.log)
    case ListFailed => l.(note := l.note.(listedInstance := None))
    case ListDisks => l.(note := l.note.(listedDisk := if owned then l.cell.disk else None))
    case Join =>
      Local(l.cell, JoinedView(l.view, l.note.listedInstance, l.note.listedDisk),
            l.note.(listedInstance := None, listedDisk := None), l.log)
    case BeginTeardowns => l.(note := l.note.(fetched := None, deletedNow := false))
    case Prune => if l.view.Some? && Gone(l.view.value) then l.(view := None) else l
    case StartProvision(names) =>
      if n in names then l.(cell := l.cell.(known := true), note := l.note.(prov := Queued)) else l
    case EndCycle => l
    case Restart => Local(l.cell.(mine := false), None, EMPTY_NOTE, l.log)
  }

  // ----- Decisions -----

  predicate DecideAt(d: Decision, s: Stage) {
    match d
    case JobStarted => s == Idle
    case JobCompleted(_) => s == Idle
    case MarkPermanent(_) => s == Plan
    case AuditGone(_) => s == Plan
    case Reclaim(_) => s == Plan
    case ScaleDown(_) => s == Scale
  }

  predicate DecideMay(now: Time, d: Decision, l: Local) {
    match d
    case JobStarted => true
    case JobCompleted(t) => t <= now
    case MarkPermanent(t) => t <= now && l.view.Some? && l.view.value.teardown.None?
    case AuditGone(t) => t <= now && l.view.Some? && Active(l.view.value) && l.cell.reg.None?
    case Reclaim(t) => t <= now && l.view.Some? && Reclaimable(l.view.value, t)
    case ScaleDown(t) => t <= now && l.view.Some? && Candidate(l.view.value, t)
  }

  function SetTeardown(l: Local, t: Option<Teardown>): Local
    requires l.view.Some?
  {
    l.(view := Some(l.view.value.(teardown := t)))
  }

  /** A teardown begins, or an existing one is upgraded, at time `t`. */
  function Mark(l: Local, p: Policy, t: Time): Local {
    var v := OrEmpty(l.view);
    Local(l.cell, Some(Marked(v, p, t)),
          if v.teardown.None? then l.note.(tried := false, markedAt := t) else l.note, l.log)
  }

  function Deregistered(l: Local): Local
    requires l.view.Some? && l.view.value.teardown.Some?
  {
    SetTeardown(l.(note := l.note.(fetched := None)),
                Some(l.view.value.teardown.value.(phase := Deprovisioning, removalAfter := None)))
  }

  function DecideEffect(now: Time, d: Decision, l: Local): Local
    requires DecideMay(now, d, l)
  {
    match d
    case JobStarted => Local(l.cell.(known := true), Some(JobStartedOn(OrEmpty(l.view))), l.note, l.log)
    case JobCompleted(t) => Mark(l.(cell := l.cell.(known := true)), Permanent, t)
    case MarkPermanent(t) => Mark(l, Permanent, t)
    case AuditGone(t) => Deregistered(Mark(l, Permanent, t))
    case Reclaim(_) => SetTeardown(l, None)
    case ScaleDown(t) => Mark(l, Cancelable, t)
  }

  // ----- Teardown -----

  predicate DriveMay(cfg: Config, now: Time, s: TeardownStep, l: Local) {
    match s
    case Expire(t) =>
      t <= now && InPhase(l.view, Window) && WindowOver(l.view.value.teardown.value, t)
    case Fetch(r) => InPhase(l.view, RemovingRegistration) && l.cell.reg == Some(r) && r.scaleSet == cfg.scaleSet
    case ConfirmGone => InPhase(l.view, RemovingRegistration) && l.cell.reg.None?
    case ForgetDestroyed =>
      InPhase(l.view, Deprovisioning) && l.view.value.instance.Some? &&
      l.view.value.instance.value.runState == Destroyed
    case Finish => InPhase(l.view, Deprovisioning) && l.view.value.instance.None? && l.view.value.disk.None?
  }

  function DriveEffect(cfg: Config, now: Time, s: TeardownStep, l: Local): Local
    requires DriveMay(cfg, now, s, l)
  {
    match s
    case Expire(_) =>
      SetTeardown(l, Some(l.view.value.teardown.value.(phase := RemovingRegistration, removalAfter := None)))
    case Fetch(r) => l.(note := l.note.(fetched := Some(r)))
    case ConfirmGone => Deregistered(l)
    case ForgetDestroyed => l.(view := Some(l.view.value.(instance := None)))
    case Finish => SetTeardown(l, None)
  }

  /** GitHub never removes the registration of a running job. */
  predicate RemovalMay(outcome: Removal, c: Cell, fetched: Option<Registration>) {
    match outcome
    case Removed => c.reg == fetched ==> !c.job
    case StillRunning => c.reg == fetched && c.job
    case RemoveFailed(took) => took ==> c.reg == fetched && !c.job
  }

  predicate IssueMay(r: Request, l: Local) {
    match r
    case Remove(outcome) =>
      InPhase(l.view, RemovingRegistration) && l.note.fetched.Some? && RemovalMay(outcome, l.cell, l.note.fetched)
    case StopCall(_, _) =>
      InPhase(l.view, Deprovisioning) && Working(l.view.value) && l.view.value.instance.value.runState != Stopping
    case DeleteInstanceCall(_, _) =>
      InPhase(l.view, Deprovisioning) && l.view.value.instance.Some? && Halting(l.view.value.instance.value.runState)
    case DeleteDiskCall(_, _) =>
      InPhase(l.view, Deprovisioning) && l.view.value.instance.None? &&
      l.view.value.disk.Some? && (l.note.deletedNow || DiskDeletable(l.view.value.disk.value))
  }

  /** What a request leaves of the cell. */
  function IssueCell(r: Request, c: Cell, fetched: Option<Registration>): Cell {
    match r
    case Remove(outcome) =>
      if (outcome == Removed || outcome == RemoveFailed(true)) && c.reg == fetched then c.(reg := None) else c
    case StopCall(ok, took) =>
      if took && Live(c.inst) then c.(inst := Some(c.inst.value.(runState := Stopping))) else c
    case DeleteInstanceCall(ok, took) => if ok || took then c.(inst := None) else c
    case DeleteDiskCall(ok, took) => if ok || took then c.(disk := None) else c
  }

  /** The log entry of a request. */
  function Entry(r: Request, l: Local, pass: nat): Call
    requires IssueMay(r, l)
  {
    match r
    case Remove(outcome) => Deregister(outcome == Removed, l.note.fetched.value.scaleSet)
    case StopCall(ok, _) => Stop(ok, l.cell.reg.Some?, l.cell.job)
    case DeleteInstanceCall(ok, _) => DeleteInstance(ok, l.cell.reg.Some?, l.cell.job, pass)
    case DeleteDiskCall(ok, _) => 
      DeleteDisk(ok, l.cell.reg.Some?, l.cell.job, l.view.value.disk.value.state, pass)
  }

  function KeepIfPermanent(t: Option<Teardown>): Option<Teardown> {
    if t.Some? && t.value.policy == Cancelable then None else t
  }

  /** What the runner makes of the answer to a request. */
  function IssueView(r: Request, v: View): View
    requires v.teardown.Some?
  {
    match r
    case Remove(Removed) => v.(teardown := Some(v.teardown.value.(phase := Deprovisioning, removalAfter := None)))
    case Remove(StillRunning) => v.(busy := true, teardown := KeepIfPermanent(v.teardown))
    case Remove(RemoveFailed(_)) => v
    case StopCall(_, _) => v
    case DeleteInstanceCall(ok, _) => if ok then v.(instance := None) else v
    case DeleteDiskCall(ok, _) => if ok then v.(disk := None) else v
  }

  function IssueNote(r: Request, o: Note): Note {
    match r
    case Remove(_) => o.(fetched := None, tried := true)
    case StopCall(_, _) => o
    case DeleteInstanceCall(ok, _) => if ok then o.(deletedNow := true) else o
    case DeleteDiskCall(_, _) => o.(deletedNow := false)
  }

  function IssueEffect(r: Request, l: Local, pass: nat): Local
    requires IssueMay(r, l)
  {
    Local(IssueCell(r, l.cell, l.note.fetched), Some(IssueView(r, l.view.value)), IssueNote(r, l.note),
          l.log + [Entry(r, l, pass)])
  }

  // ----- Provisioning -----

  predicate ProvideMay(cfg: Config, now: Time, p: ProvisionStep, l: Local) {
    match p
    case Register(_, _, r) => l.note.prov == Queued && r.scaleSet == cfg.scaleSet
    case Create(_, _, i, _, _) => l.note.prov == Registered && i.runState != Destroyed
    case Merge(t) => t <= now && (l.note.prov.Created? || l.note.prov == Aborted)
  }

  function ProvideEffect(p: ProvisionStep, l: Local): Local {
    match p
    case Register(ok, fate, r) =>
      var c := l.cell.(mine := true);
      if ok then l.(cell := c.(reg := Some(r)), note := l.note.(prov := Registered))
      else l.(cell := c.(reg := if fate == Landed then Some(r) else c.reg, regPending := fate == Pending),
              note := l.note.(prov := Aborted))
    case Create(ok, fate, i, d, whole) =>
      if ok then l.(cell := l.cell.(inst := Some(i), disk := Some(d)), note := l.note.(prov := Created(i)))
      else l.(cell := if fate == Landed then l.cell.(inst := if whole then Some(i) else None, disk := Some(d))
                      else l.cell.(instPending := fate == Pending),
              note := l.note.(prov := Aborted))
    case Merge(t) =>
      var m := if l.note.prov.Created?
               then l.(view := Some(OrEmpty(l.view).(instance := Some(l.note.prov.instance))))
               else Mark(l, Permanent, t);
      m.(note := m.note.(prov := NoProvision))
  }

  // ----- Any action -----

  function Advance(a: Action, g: Globals): Globals {
    match a
    case Tick(t) => g.(now := t)
    case Cycle(c) => Staged(c, g)
    case _ => g
  }

  /** Seen from one name, the action is allowed now. */
  predicate Taken(cfg: Config, g: Globals, a: Action, n: Name, l: Local) {
    match a
    case Tick(t) => g.now <= t
    case Cycle(c) => CycleAt(c, g.stage) && CycleMay(Owned(cfg, n), c, n, l)
    case World(m, w) => m == n ==> WorldMay(Owned(cfg, n), w, l.cell)
    case Decide(m, d) => DecideAt(d, g.stage) && (m == n ==> DecideMay(g.now, d, l))
    case Drive(m, s) => g.stage == Act && (m == n ==> DriveMay(cfg, g.now, s, l))
    case Issue(m, r) => g.stage == Act && (m == n ==> IssueMay(r, l))
    case Provide(m, p) => g.stage == Provisioning && (m == n ==> ProvideMay(cfg, g.now, p, l))
  }

  /** What the action makes of one name. */
  function After(cfg: Config, g: Globals, a: Action, n: Name, l: Local): Local
    requires Taken(cfg, g, a, n, l)
  {
    match a
    case Tick(_) => l
    case Cycle(c) => CycleEffect(Owned(cfg, n), c, n, l)
    case World(m, w) => if m == n then l.(cell := WorldEffect(w, l.cell)) else l
    case Decide(m, d) => if m == n then DecideEffect(g.now, d, l) else l
    case Drive(m, s) => if m == n then DriveEffect(cfg, g.now, s, l) else l
    case Issue(m, r) => if m == n then IssueEffect(r, l, g.pass) else l
    case Provide(m, p) => if m == n then ProvideEffect(p, l) else l
  }
}
