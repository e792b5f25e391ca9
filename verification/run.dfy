/** The reconciliation loop. */
module Running {
  import opened Types
  import opened Protocol
  import opened System
  import opened Clouds
  import opened Runners
  import opened Teardowns
  import opened Scalers
  import opened Reconciling
  import opened Driving
  import opened Theorems
  import Inbox

  const RECONCILE_INTERVAL: Time := 5 * MINUTE

  datatype Reason = Initial | Wake | Retry | Interval
  datatype End = Canceled | ScaleSetDrained | RoundsOver

  /** Any number of messages from the listener. */
  method Messages(s: Scaler, ghost steps: seq<Inbox.Step>) returns (ghost more: seq<Inbox.Step>)
    requires Inbox.Mirrors(s, steps)
    modifies s`desiredRunnerCount, s`jobEvents, s`woken
    ensures steps <= more
    ensures Inbox.Mirrors(s, more) && Inbox.After(more).value.loop == Inbox.After(steps).value.loop
    ensures Inbox.After(more).value.used == Inbox.After(steps).value.used
    ensures Inbox.After(more).value.applied == Inbox.After(steps).value.applied
  {
    var messages: nat := *;
    more := steps;
    while messages > 0
      invariant steps <= more
      invariant Inbox.Mirrors(s, more) && Inbox.After(more).value.loop == Inbox.After(steps).value.loop
      invariant Inbox.After(more).value.used == Inbox.After(steps).value.used
      invariant Inbox.After(more).value.applied == Inbox.After(steps).value.applied
    {
      var kind: int, count: int, name: Name := *, *, *;
      if kind == 0 {
        var active;
        Inbox.CallStored(more, Inbox.StoreDemand(count));
        active, more := Inbox.Demand(s, count, more);
      } else {
        var e := JobEvent(name, if kind == 1 then Started else Completed);
        Inbox.CallStored(more, Inbox.StoreEvent(e));
        more := Inbox.Job(s, e, more);
      }
      messages := messages - 1;
    }
  }

  /** The reasons ready to start a cycle. */
  predicate Ready(r: Reason, woken: bool, next: Option<Time>, last: Time, now: Time) {
    match r
    case Initial => false
    case Wake => woken
    case Retry => next.Some? && next.value <= now
    case Interval => last + RECONCILE_INTERVAL <= now
  }

  /** Why the loop may begin a cycle `now`. */
  predicate Timely(r: Reason, next: Option<Time>, last: Time, now: Time) {
    match r
    case Initial => false
    case Wake => true
    case Retry => next.Some? && next.value <= now
    case Interval => last + 5 * MINUTE <= now
  }

  /** Time passes, at least until `t`. */
  method WaitUntil(cloud: Cloud, st: ReconcileState, t: Time)
    requires Wired(cloud, st)
    modifies cloud
    ensures Wired(cloud, st) && cloud.sys.g.stage == old(cloud.sys).g.stage && Onward(cloud) && t <= cloud.now
  {
    hide Run, Init;
    cloud.EnvMove(Tick(Max(cloud.now, t)));
  }

  method WorldMoves(cloud: Cloud, st: ReconcileState)
    requires Wired(cloud, st)
    modifies cloud
    ensures Wired(cloud, st) && cloud.sys.g.stage == old(cloud.sys).g.stage && Onward(cloud)
  {
    hide Run, Init;
    cloud.Interfere();
  }

  /** The listener hands over messages while the loop waits; time passes, the world moves.
      The wait is over for any reason that is ready; if need be, when the interval ends. */
  method Listen(s: Scaler, st: ReconcileState, next: Option<Time>, last: Time, ghost steps: seq<Inbox.Step>)
    returns (reason: Reason, ghost more: seq<Inbox.Step>)
    requires Wired(s.cloud, st) && s !in st.repr && Inbox.Mirrors(s, steps)
    modifies s`desiredRunnerCount, s`jobEvents, s`woken, s.cloud
    ensures Wired(s.cloud, st) && s.cloud.sys.g.stage == old(s.cloud.sys).g.stage && Onward(s.cloud)
    ensures Timely(reason, next, last, s.cloud.now) && (reason == Wake ==> s.woken)
    ensures steps <= more
    ensures Inbox.Mirrors(s, more) && Inbox.After(more).value.loop == Inbox.After(steps).value.loop
    ensures Inbox.After(more).value.used == Inbox.After(steps).value.used
    ensures Inbox.After(more).value.applied == Inbox.After(steps).value.applied
  {
    hide Run, Init, Wired, Grew, Inbox.Mirrors, Inbox.After;
    WorldMoves(s.cloud, st);
    more := Messages(s, steps);
    reason := *;
    if !Ready(reason, s.woken, next, last, s.cloud.now) {
      ghost var acts := s.cloud.acts;
      WaitUntil(s.cloud, st, last + RECONCILE_INTERVAL);
      GrewOn(old(s.cloud.acts), acts, s.cloud.acts);
      reason := Interval;
    }
  }

  /** The loop never waits without a deadline while a teardown is in progress. */
  ghost predicate Scheduled(st: ReconcileState, next: Option<Time>)
    requires st.Valid()
    reads st, st.repr
  {
    TearingSet(st.Views()) != {} ==> next.Some?
  }

  lemma CoveredScheduled(st: ReconcileState, next: Option<Time>, limit: Time)
    requires st.Valid() && AllCovered(st.Views(), next, limit)
    ensures Scheduled(st, next)
  {
    if next.None? {
      NeverUncovered(st.Views(), limit);
    }
  }

  // ----- The cycles of a loop -----

  /** One cycle: why it began, when, what it took in and found in the records, what it did
      and left, and the deadline it answered with. */
  datatype Ran = Ran(
    reason: Reason, from: Time, to: Time, begun: seq<Action>, end: seq<Action>,
    desired: int, events: seq<JobEvent>, before: map<Name, View>, tr: Trace, after: map<Name, View>,
    drained: bool, next: Option<Time>)

  /** The deadline is the earliest the cycle was asked for, or fifteen seconds after a
      failed observation. */
  ghost predicate Answered(next: Option<Time>, tr: Trace, to: Time) {
    if tr.ok then Soonest(next, tr) else next == Some(to + 15 * SECOND)
  }

  /** It heard all it took from the inbox, did a cycle of the run, and answered. */
  ghost predicate Sound(cfg: Config, origin: Sys, c: Ran)
    requires ValidConfig(cfg)
  {
    && c.tr.heard == ApplyEvents(c.before, c.events)
    && (if c.tr.ok
        then Cycles(cfg, c.desired, c.tr, c.after) && Rooted(cfg, origin, c.begun, c.end, c.from, c.to, c.tr)
        else c.after == c.tr.heard)
    && (if c.drained then c.tr.ok && c.after == map[] else Answered(c.next, c.tr, c.to))
  }

  ghost predicate Follows(a: Ran, b: Ran) {
    && !a.drained && b.before == a.after && Grew(a.end, b.begun) && a.to <= b.from
    && Timely(b.reason, a.next, a.to, b.from)
  }

  /** The cycles of a loop, from its first on: each works on the records the last one left. */
  ghost predicate History(cfg: Config, origin: Sys, cs: seq<Ran>)
    requires ValidConfig(cfg)
  {
    && (cs != [] ==> cs[0].reason == Initial && cs[0].before == map[])
    && (forall i :: 0 <= i < |cs| ==> Sound(cfg, origin, cs[i]))
    && forall i, j :: 0 <= i && j == i + 1 && j < |cs| ==> Follows(cs[i], cs[j])
  }

  /** All the events the cycles took, in order. */
  function Heard(cs: seq<Ran>): seq<JobEvent> {
    if |cs| == 0 then [] else Heard(cs[..|cs| - 1]) + cs[|cs| - 1].events
  }

  /** Where a loop stands after its cycles. */
  ghost predicate Stands(cs: seq<Ran>, vs: map<Name, View>, acts: seq<Action>, now: Time, drained: bool,
                         next: Option<Time>, last: Time)
  {
    cs != [] && var c := cs[|cs| - 1];
                c.after == vs && Grew(c.end, acts) && c.to == last <= now && c.drained == drained &&
                (!drained ==> c.next == next)
  }

  lemma FirstRan(cfg: Config, origin: Sys, c: Ran)
    requires ValidConfig(cfg) && Sound(cfg, origin, c) && c.reason == Initial && c.before == map[]
    ensures History(cfg, origin, [c]) && Heard([c]) == c.events
    ensures Stands([c], c.after, c.end, c.to, c.drained, c.next, c.to)
  {
    hide Sound;
    assert [c][..0] == [];
  }

  lemma NextRan(cfg: Config, origin: Sys, cs: seq<Ran>, c: Ran, vs: map<Name, View>, next: Option<Time>, last: Time)
    requires ValidConfig(cfg) && History(cfg, origin, cs) && Sound(cfg, origin, c)
    requires Stands(cs, vs, c.begun, c.from, false, next, last) && c.before == vs
    requires Timely(c.reason, next, last, c.from)
    ensures History(cfg, origin, cs + [c]) && Heard(cs + [c]) == Heard(cs) + c.events
    ensures Stands(cs + [c], c.after, c.end, c.to, c.drained, c.next, c.to)
  {
    hide Sound;
    assert (cs + [c])[..|cs|] == cs;
  }

  lemma StillStands(cs: seq<Ran>, vs: map<Name, View>, acts: seq<Action>, now: Time, drained: bool,
                    next: Option<Time>, last: Time, more: seq<Action>, later: Time)
    requires Stands(cs, vs, acts, now, drained, next, last) && Grew(acts, more) && now <= later
    ensures Stands(cs, vs, more, later, drained, next, last)
  {
    GrewOn(cs[|cs| - 1].end, acts, more);
  }

  method OneCycle(s: Scaler, st: ReconcileState, ghost reason: Reason, ghost steps: seq<Inbox.Step>)
    returns (drained: bool, next: Option<Time>, ghost more: seq<Inbox.Step>, ghost c: Ran)
    requires Wired(s.cloud, st) && s.cloud.sys.g.stage == Idle && s !in st.repr && st.Valid()
    requires Inbox.Mirrors(s, steps) && Inbox.After(steps).value.loop == Inbox.Bound
    modifies s`jobEvents, s`activeRunnerCount, st.repr, s.cloud
    ensures Wired(s.cloud, st) && s.cloud.sys.g.stage == Idle && Onward(s.cloud) && s.cloud.Valid()
    ensures fresh(st.repr - old(st.repr)) && s.jobEvents == [] && st.Valid()
    ensures drained ==> Theorems.Drained(s.cloud.cfg, s.cloud.sys) && s.cloud.cfg.maxRunners == 0
    ensures !drained ==> Scheduled(st, next)
    ensures steps <= more && Inbox.Mirrors(s, more) && Inbox.After(more).value.used == st.desiredRunnerCount
    ensures Inbox.After(more).value.loop == if drained then Inbox.Ended else Inbox.Waiting
    ensures Inbox.After(more).value.applied == Inbox.After(steps).value.applied + c.events
    ensures Sound(s.cloud.cfg, s.cloud.origin, c) && c.desired == st.desiredRunnerCount
    ensures c.reason == reason && c.from == old(s.cloud.now) && c.to == s.cloud.now && c.drained == drained
    ensures c.begun == old(s.cloud.acts) && c.end == s.cloud.acts && c.next == next
    ensures c.events == old(s.jobEvents) && c.before == old(st.Views()) && c.after == st.Views()
  {
    hide Run, Init, Wired, Grew, GrewPassively, Cycles, AllCovered, ActiveSet, ApplyEvents, Theorems.Drained;
    hide Scheduled, TearingSet, Rooted, NoLaterThanAny, Unclean, Soonest, Swept, NotFound;
    Unwire(s.cloud, st);
    ghost var from, begun, events, before := s.cloud.now, s.cloud.acts, s.jobEvents, st.Views();
    var result;
    ghost var tr;
    ghost var i := Inbox.After(steps).value;
    result, tr := Reconcile(s, st);
    drained, next := result == ErrScaleSetDrained, None;
    ghost var over := if drained then Inbox.Drained else Inbox.CycleOver(tr.ok);
    Inbox.CycleTakesAll(steps, over);
    more := steps + Inbox.CycleSteps(|i.events|, over);
    if !drained {
      next := result.at;
      if tr.ok {
        CoveredScheduled(st, next, s.cloud.now + Delay(!Hindered(tr)));
      } else {
        SomeDeadline(st, next);
      }
    }
    c := Ran(reason, from, s.cloud.now, begun, s.cloud.acts, s.desiredRunnerCount, events, before, tr, st.Views(),
             drained, next);
  }

  lemma SomeDeadline(st: ReconcileState, next: Option<Time>)
    requires st.Valid() && next.Some?
    ensures Scheduled(st, next)
  {
  }

  /** A waiting loop with something pending has a token. */
  lemma Awake(s: Scaler, steps: seq<Inbox.Step>)
    requires Inbox.Mirrors(s, steps) && Inbox.After(steps).value.loop == Inbox.Waiting
    ensures s.jobEvents != [] || s.desiredRunnerCount != Inbox.After(steps).value.used ==> s.woken
  {
    Inbox.NoLostWakeUp(steps);
  }

  /** Runs cycles and waits, any number of them, as a party to the protocol of the inbox:
      the history it leaves continues the one it was given. */
  method RunLoop(s: Scaler, ghost steps: seq<Inbox.Step>)
    returns (end: End, ghost st: ReconcileState, ghost next: Option<Time>, ghost more: seq<Inbox.Step>,
             ghost cycles: seq<Ran>)
    requires s.cloud.Valid() && s.cloud.sys.g.stage == Idle && forall n :: At(s.cloud.sys, n).view.None?
    requires Inbox.Mirrors(s, steps) && Inbox.After(steps).value.loop == Inbox.Bound
    modifies s, s.cloud
    ensures Wired(s.cloud, st) && Onward(s.cloud)
    ensures end == ScaleSetDrained ==> Theorems.Drained(s.cloud.cfg, s.cloud.sys) && s.cloud.cfg.maxRunners == 0
    ensures steps <= more && Inbox.Mirrors(s, more)
    ensures Inbox.After(more).value.loop == if end == RoundsOver then Inbox.Waiting else Inbox.Ended
    ensures end == RoundsOver ==> st.Valid() && Scheduled(st, next)
    ensures end == RoundsOver && (s.jobEvents != [] || s.desiredRunnerCount != st.desiredRunnerCount) ==> s.woken
    ensures s.cloud.Valid() && History(s.cloud.cfg, s.cloud.origin, cycles)
    ensures Inbox.After(more).value.applied == Inbox.After(steps).value.applied + Heard(cycles)
    ensures end != Canceled ==>
              st.Valid() && cycles != [] && cycles[|cycles| - 1].after == st.Views() &&
              cycles[|cycles| - 1].drained == (end == ScaleSetDrained)
    ensures end == RoundsOver ==> next == cycles[|cycles| - 1].next
  {
    hide Run, Init, Grew, Theorems.Drained, Scheduled, Inbox.After;
    var state := new ReconcileState();
    st, next, cycles := state, None, [];
    GrewNone(s.cloud.acts);
    var canceled: bool := *;
    if canceled {
      more := Stopped(s, steps);
      return Canceled, st, next, more, [];
    }
    var rounds: nat := *;
    end, next, more, cycles := Cycling(s, state, rounds, steps);
  }

  /** The process is cancelled: the loop ends where it stands. */
  ghost method Stopped(s: Scaler, steps: seq<Inbox.Step>) returns (more: seq<Inbox.Step>)
    requires Inbox.Mirrors(s, steps)
    requires Inbox.After(steps).value.loop == Inbox.Bound || Inbox.After(steps).value.loop == Inbox.Waiting
    ensures steps <= more && Inbox.Mirrors(s, more) && Inbox.After(more).value.loop == Inbox.Ended
    ensures Inbox.After(more).value.applied == Inbox.After(steps).value.applied
  {
    Inbox.AfterMore(steps, Inbox.Cancel);
    more := steps + [Inbox.Cancel];
  }

  /** A reason that is ready starts a cycle; the token goes if it was the reason. */
  method Start(s: Scaler, reason: Reason, ghost steps: seq<Inbox.Step>) returns (ghost more: seq<Inbox.Step>)
    requires Inbox.Mirrors(s, steps) && Inbox.After(steps).value.loop == Inbox.Waiting
    requires reason != Initial && (reason == Wake ==> s.woken)
    modifies s`woken
    ensures steps <= more && Inbox.Mirrors(s, more) && Inbox.After(more).value.loop == Inbox.Bound
    ensures Inbox.After(more).value.applied == Inbox.After(steps).value.applied
    ensures s.woken == (old(s.woken) && reason != Wake)
  {
    ghost var a := if reason == Wake then Inbox.TakeToken else Inbox.TimerFires;
    Inbox.AfterMore(steps, a);
    more := steps + [a];
    if reason == Wake {
      s.woken := false;
    }
  }

  /** One more cycle, for a reason that is ready. */
  method Again(s: Scaler, st: ReconcileState, reason: Reason, ghost next: Option<Time>, ghost last: Time,
               ghost steps: seq<Inbox.Step>, ghost cycles: seq<Ran>)
    returns (drained: bool, at: Option<Time>, ghost more: seq<Inbox.Step>, ghost all: seq<Ran>)
    requires Wired(s.cloud, st) && s.cloud.sys.g.stage == Idle && s !in st.repr && st.Valid() && s.cloud.Valid()
    requires Inbox.Mirrors(s, steps) && Inbox.After(steps).value.loop == Inbox.Waiting
    requires Timely(reason, next, last, s.cloud.now) && (reason == Wake ==> s.woken)
    requires History(s.cloud.cfg, s.cloud.origin, cycles)
    requires Stands(cycles, st.Views(), s.cloud.acts, s.cloud.now, false, next, last)
    modifies s`jobEvents, s`activeRunnerCount, s`woken, st.repr, s.cloud
    ensures Wired(s.cloud, st) && s.cloud.sys.g.stage == Idle && Onward(s.cloud) && s.cloud.Valid()
    ensures fresh(st.repr - old(st.repr)) && st.Valid()
    ensures drained ==> Theorems.Drained(s.cloud.cfg, s.cloud.sys) && s.cloud.cfg.maxRunners == 0
    ensures !drained ==> Scheduled(st, at)
    ensures steps <= more && Inbox.Mirrors(s, more) && Inbox.After(more).value.used == st.desiredRunnerCount
    ensures Inbox.After(more).value.loop == if drained then Inbox.Ended else Inbox.Waiting
    ensures History(s.cloud.cfg, s.cloud.origin, all)
    ensures Stands(all, st.Views(), s.cloud.acts, s.cloud.now, drained, at, s.cloud.now) && |all| == |cycles| + 1
    ensures exists events :: Heard(all) == Heard(cycles) + events &&
                             Inbox.After(more).value.applied == Inbox.After(steps).value.applied + events
  {
    hide Run, Init, Wired, Grew, Theorems.Drained, Scheduled, Inbox.After, Sound, History, Stands, Heard;
    Unwire(s.cloud, st);
    more := Start(s, reason, steps);
    ghost var c;
    drained, at, more, c := OneCycle(s, st, reason, more);
    NextRan(s.cloud.cfg, s.cloud.origin, cycles, c, c.before, next, last);
    all := cycles + [c];
  }

  method Cycling(s: Scaler, st: ReconcileState, rounds: nat, ghost steps: seq<Inbox.Step>)
    returns (end: End, next: Option<Time>, ghost more: seq<Inbox.Step>, ghost cycles: seq<Ran>)
    requires Wired(s.cloud, st) && s.cloud.sys.g.stage == Idle && s !in st.repr
    requires st.Valid() && st.Views() == map[]
    requires Inbox.Mirrors(s, steps) && Inbox.After(steps).value.loop == Inbox.Bound
    modifies s, st.repr, s.cloud
    ensures Wired(s.cloud, st) && Onward(s.cloud)
    ensures end == ScaleSetDrained ==> Theorems.Drained(s.cloud.cfg, s.cloud.sys) && s.cloud.cfg.maxRunners == 0
    ensures steps <= more && Inbox.Mirrors(s, more)
    ensures Inbox.After(more).value.loop == if end == RoundsOver then Inbox.Waiting else Inbox.Ended
    ensures end == RoundsOver ==> st.Valid() && Scheduled(st, next)
    ensures end == RoundsOver && (s.jobEvents != [] || s.desiredRunnerCount != st.desiredRunnerCount) ==> s.woken
    ensures s.cloud.Valid() && History(s.cloud.cfg, s.cloud.origin, cycles)
    ensures Inbox.After(more).value.applied == Inbox.After(steps).value.applied + Heard(cycles)
    ensures end != Canceled ==>
              st.Valid() && cycles != [] && cycles[|cycles| - 1].after == st.Views() &&
              cycles[|cycles| - 1].drained == (end == ScaleSetDrained)
    ensures end == RoundsOver ==> next == cycles[|cycles| - 1].next && |cycles| == rounds + 1
  {
    hide Run, Init, Wired, Grew, Theorems.Drained, Scheduled, Inbox.After, Sound, History, Stands, Heard;
    Unwire(s.cloud, st);
    GrewNone(s.cloud.acts);
    ghost var c;
    var drained;
    drained, next, more, c := OneCycle(s, st, Initial, steps);
    FirstRan(s.cloud.cfg, s.cloud.origin, c);
    cycles := [c];
    var last := s.cloud.now;
    for round := 0 to rounds
      invariant Wired(s.cloud, st) && s.cloud.sys.g.stage == Idle && Onward(s.cloud) && s.cloud.Valid()
      invariant s !in st.repr && fresh(st.repr - old(st.repr)) && st.Valid()
      invariant steps <= more && Inbox.Mirrors(s, more) && Inbox.After(more).Some?
      invariant Inbox.After(more).value.used == st.desiredRunnerCount
      invariant Inbox.After(more).value.loop == if drained then Inbox.Ended else Inbox.Waiting
      invariant Inbox.After(more).value.applied == Inbox.After(steps).value.applied + Heard(cycles)
      invariant drained ==> Theorems.Drained(s.cloud.cfg, s.cloud.sys) && s.cloud.cfg.maxRunners == 0
      invariant !drained ==> Scheduled(st, next)
      invariant History(s.cloud.cfg, s.cloud.origin, cycles)
      invariant Stands(cycles, st.Views(), s.cloud.acts, s.cloud.now, drained, next, last)
      invariant |cycles| == round + 1
    {
      if drained {
        StandsAt(cycles, st.Views(), s.cloud.acts, s.cloud.now, drained, next, last);
        return ScaleSetDrained, next, more, cycles;
      }
      ghost var acts, now := s.cloud.acts, s.cloud.now;
      var reason;
      reason, more := Listen(s, st, next, last, more);
      GrewOn(old(s.cloud.acts), acts, s.cloud.acts);
      Unwire(s.cloud, st);
      StillStands(cycles, st.Views(), acts, now, drained, next, last, s.cloud.acts, s.cloud.now);
      var canceled: bool := *;
      if canceled {
        more := Stopped(s, more);
        return Canceled, next, more, cycles;
      }
      acts := s.cloud.acts;
      ghost var base, heard := Inbox.After(more).value.applied, Heard(cycles);
      drained, next, more, cycles := Again(s, st, reason, next, last, more, cycles);
      HeardOn(Inbox.After(steps).value.applied, heard, base, Heard(cycles), Inbox.After(more).value.applied);
      GrewOn(old(s.cloud.acts), acts, s.cloud.acts);
      last := s.cloud.now;
    }
    StandsAt(cycles, st.Views(), s.cloud.acts, s.cloud.now, drained, next, last);
    end := if drained then ScaleSetDrained else RoundsOver;
    if !drained {
      Awake(s, more);
    }
  }

  lemma HeardOn<T>(start: seq<T>, heard: seq<T>, base: seq<T>, heard': seq<T>, base': seq<T>)
    requires base == start + heard && exists events :: heard' == heard + events && base' == base + events
    ensures base' == start + heard'
  {
  }

  lemma StandsAt(cs: seq<Ran>, vs: map<Name, View>, acts: seq<Action>, now: Time, drained: bool,
                 next: Option<Time>, last: Time)
    requires Stands(cs, vs, acts, now, drained, next, last)
    ensures cs != [] && cs[|cs| - 1].after == vs && cs[|cs| - 1].drained == drained
    ensures !drained ==> cs[|cs| - 1].next == next
  {
  }
}
