/** The values a runner is made of, and the pure decisions taken on them. */
module Types {
  type Name = string

  /** A clock reading in nanoseconds. Go's zero time is `None` of an `Option<Time>`. */
  type Time = int

  datatype Option<+T> = None | Some(value: T)

  const SECOND: Time := 1_000_000_000
  const MINUTE: Time := 60 * SECOND
  const RESOURCE_GRACE_PERIOD: Time := 5 * MINUTE
  const PROVISIONING_TIMEOUT: Time := 10 * MINUTE
  const SCALE_DOWN_CANCELLATION_DELAY: Time := 5 * SECOND
  const TEARDOWN_POLL_DELAY: Time := 5 * SECOND
  const RECONCILE_RETRY_DELAY: Time := 15 * SECOND
  const GITHUB_AUDIT_INTERVAL: Time := 10 * MINUTE
  const PROVISION_CONCURRENCY := 5

  /** The instance states the program distinguishes; every other one is `OtherRunState`. */
  datatype RunState =
    | Creating | Starting | Running | Stopping | Stopped | Failed | Destroyed | OtherRunState

  /** The disk states the program distinguishes; `Attached` stands for any it waits on. */
  datatype DiskState = Detached | Faulted | Attached | OtherDiskState

  datatype Instance = Instance(runState: RunState, created: Option<Time>, runStateUpdated: Option<Time>)
  datatype Disk = Disk(state: DiskState, created: Option<Time>)
  datatype Registration = Registration(id: int, scaleSet: int)

  datatype Policy = Permanent | Cancelable
  datatype Phase = Window | RemovingRegistration | Deprovisioning
  datatype Teardown = Teardown(policy: Policy, phase: Phase, removalAfter: Option<Time>)

  /** The value of one tracked runner. */
  datatype View = View(instance: Option<Instance>, disk: Option<Disk>, busy: bool, teardown: Option<Teardown>)

  const EMPTY_VIEW := View(None, None, false, None)

  datatype Config = Config(prefix: string, scaleSet: int, minRunners: int, maxRunners: int)

  predicate ValidConfig(cfg: Config) {
    0 <= cfg.minRunners <= cfg.maxRunners
  }

  /** Ownership is encoded in the name. */
  predicate Owned(cfg: Config, n: Name) {
    cfg.prefix <= n
  }

  predicate InstanceHalted(s: RunState) {
    s == Stopped || s == Failed || s == Destroyed
  }

  /** An instance that can be deleted as it stands. */
  predicate Halting(s: RunState) {
    s == Stopped || s == Failed
  }

  predicate Live(i: Option<Instance>) {
    i.Some? && i.value.runState != Destroyed
  }

  /** A tracked instance that can still run a job. */
  predicate Working(v: View) {
    v.instance.Some? && !InstanceHalted(v.instance.value.runState)
  }

  predicate Active(v: View) {
    Working(v) && v.teardown.None?
  }

  predicate Gone(v: View) {
    v.instance.None? && v.disk.None? && v.teardown.None?
  }

  predicate PastGrace(created: Option<Time>, now: Time) {
    created.None? || now - created.value >= RESOURCE_GRACE_PERIOD
  }

  predicate TimedOut(i: Instance, now: Time) {
    (i.runState == Creating || i.runState == Starting) &&
    var since := if i.runStateUpdated.Some? then i.runStateUpdated else i.created;
    since.None? || now - since.value >= PROVISIONING_TIMEOUT
  }

  predicate DiskDeletable(d: Disk) {
    d.state == Detached || d.state == Faulted
  }

  predicate WindowOver(t: Teardown, now: Time) {
    t.removalAfter.Some? ==> t.removalAfter.value <= now
  }

  predicate CanCancelForCapacity(t: Option<Teardown>, now: Time) {
    t.Some? && t.value.policy == Cancelable && t.value.phase == Window &&
    t.value.removalAfter.Some? && now < t.value.removalAfter.value
  }

  predicate CanCancelForJob(t: Option<Teardown>) {
    t.Some? && t.value.policy == Cancelable && t.value.phase != Deprovisioning
  }

  predicate InPhase(v: Option<View>, p: Phase) {
    v.Some? && v.value.teardown.Some? && v.value.teardown.value.phase == p
  }

  predicate HasTeardown(v: Option<View>, p: Policy) {
    v.Some? && v.value.teardown.Some? && v.value.teardown.value.policy == p
  }

  /** An idle runner that scale-down may pick. */
  predicate Candidate(v: View, now: Time) {
    Active(v) && !v.busy && PastGrace(v.instance.value.created, now)
  }

  /** A runner that rising demand may take back. */
  predicate Reclaimable(v: View, now: Time) {
    Working(v) && CanCancelForCapacity(v.teardown, now)
  }

  /** What marking does to a runner: a new record, an upgrade, or nothing. */
  function Marked(v: View, policy: Policy, now: Time): View {
    match v.teardown
    case None =>
      v.(teardown := Some(if policy == Cancelable
                          then Teardown(Cancelable, Window, Some(now + SCALE_DOWN_CANCELLATION_DELAY))
                          else Teardown(Permanent, RemovingRegistration, None)))
    case Some(t) =>
      if t.policy == Cancelable && policy == Permanent
      then v.(teardown := Some(if t.phase == Window then Teardown(Permanent, RemovingRegistration, None)
                               else t.(policy := Permanent)))
      else v
  }

  function JobStartedOn(v: View): View {
    v.(busy := true, teardown := if CanCancelForJob(v.teardown) then None else v.teardown)
  }

  function OrEmpty(v: Option<View>): View {
    if v.Some? then v.value else EMPTY_VIEW
  }

  function Lookup<T>(m: map<Name, T>, n: Name): Option<T> {
    if n in m then Some(m[n]) else None
  }

  function Min(a: int, b: int): int {
    if a < b then a else b
  }

  function Max(a: int, b: int): int {
    if a < b then b else a
  }

  lemma {:induction false} SubsetSize<T>(a: set<T>, b: set<T>)
    requires a <= b
    ensures |a| <= |b|
  {
    if x :| x in a {
      SubsetSize(a - {x}, b - {x});
    }
  }
}
