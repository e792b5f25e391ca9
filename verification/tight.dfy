/** Two cycles may be too few: a run of two clean ones, in a world that settles, that leaves
    a runner. */
module Tight {
  import opened Types
  import opened Protocol
  import opened System
  import opened Clouds
  import opened Runners
  import opened Teardowns
  import opened Marking
  import opened Ordering
  import opened Capacity
  import opened Observing
  import opened Driving
  import opened Reconciling
  import opened Drain
  import opened DrainRun

  const LATER := SCALE_DOWN_CANCELLATION_DELAY
  const UP := Instance(Running, None, None)
  const IDLE := EMPTY_VIEW.(instance := Some(UP))
  const GIVEN_UP := IDLE.(teardown := Some(Teardown(Cancelable, Window, Some(LATER))))
  const LEAVING := IDLE.(teardown := Some(Teardown(Cancelable, RemovingRegistration, None)))
  const GOING := IDLE.(teardown := Some(Teardown(Cancelable, Deprovisioning, None)))

  // ----- The run -----

  function UpCell(reg: Registration): Cell {
    Cell(true, Some(reg), false, false, Some(UP), None, false, false, false, false)
  }

  /** A registered runner is up, and the process has yet to see it. */
  function Start(n: Name, reg: Registration): Sys {
    Sys(Globals(0, Idle, 0), map[n := Local(UpCell(reg), None, EMPTY_NOTE, [])])
  }

  /** An idle runner is given up in a first cycle, and told to stop in a second. */
  function Story(n: Name, reg: Registration): (acts: seq<Action>)
    ensures |acts| == 18
  {
    [Cycle(ListInstances), Cycle(ListDisks), Cycle(CycleMove.Join), Cycle(BeginTeardowns), Cycle(Prune),
     Decide(n, ScaleDown(0)), Cycle(EndCycle), Tick(LATER),
     Cycle(ListInstances), Cycle(ListDisks), Cycle(CycleMove.Join), Cycle(BeginTeardowns),
     Drive(n, Expire(LATER)), Drive(n, Fetch(reg)), Issue(n, Remove(Removed)), Issue(n, StopCall(true, true)),
     Cycle(Prune), Cycle(EndCycle)]
  }

  function StageAt(k: nat): Stage {
    if k == 1 || k == 9 then InstancesListed
    else if k == 2 || k == 10 then Listed
    else if k == 3 || k == 11 then Plan
    else if k == 4 || 12 <= k <= 16 then Act
    else if k == 5 || k == 6 || k == 17 then Scale
    else Idle
  }

  function GlobalsAt(k: nat): Globals {
    Globals(if k < 8 then 0 else LATER, StageAt(k), if k < 4 then 0 else if k < 12 then 1 else 2)
  }

  function ViewAt(k: nat): Option<View> {
    if k < 3 then None
    else if k < 6 then Some(IDLE)
    else if k < 13 then Some(GIVEN_UP)
    else if k < 15 then Some(LEAVING)
    else Some(GOING)
  }

  /** The runner after `k` steps of the story. */
  function RunnerAt(reg: Registration, k: nat): Local {
    var cell := if k < 15 then UpCell(reg) else UpCell(reg).(reg := None);
    var gone := Deregister(true, reg.scaleSet);
    Local(if k < 16 then cell else cell.(inst := Some(UP.(runState := Stopping))),
          ViewAt(k),
          EMPTY_NOTE.(listedInstance := if k == 1 || k == 2 || k == 9 || k == 10 then Some(UP) else None,
                      fetched := if k == 14 then Some(reg) else None, tried := k >= 15),
          if k < 15 then [] else if k == 15 then [gone] else [gone, Stop(true, false, false)])
  }

  /** What happens next is allowed, and takes the runner one step further. */
  ghost predicate Fits(cfg: Config, n: Name, reg: Registration, k: nat)
    requires k < 18
  {
    var a := Story(n, reg)[k];
    && Taken(cfg, GlobalsAt(k), a, n, RunnerAt(reg, k)) && Advance(a, GlobalsAt(k)) == GlobalsAt(k + 1)
    && After(cfg, GlobalsAt(k), a, n, RunnerAt(reg, k)) == RunnerAt(reg, k + 1)
  }

  lemma FirstFits(cfg: Config, n: Name, reg: Registration, k: nat)
    requires Owned(cfg, n) && k < 8
    ensures Fits(cfg, n, reg, k)
  {
  }

  lemma SecondFits(cfg: Config, n: Name, reg: Registration, k: nat)
    requires Owned(cfg, n) && reg.scaleSet == cfg.scaleSet && 8 <= k < 13
    ensures Fits(cfg, n, reg, k)
  {
  }

  lemma LastFits(cfg: Config, n: Name, reg: Registration, k: nat)
    requires Owned(cfg, n) && reg.scaleSet == cfg.scaleSet && 13 <= k < 18
    ensures Fits(cfg, n, reg, k)
  {
  }

  /** The runner is as told after `k` steps, and there is nothing else. */
  ghost predicate Reached(cfg: Config, n: Name, reg: Registration, k: nat)
    requires k <= 18
  {
    && Legal(cfg, Start(n, reg), Story(n, reg)[..k])
    && var s := Exec(cfg, Start(n, reg), Story(n, reg)[..k]);
       s.g == GlobalsAt(k) && At(s, n) == RunnerAt(reg, k) && forall m :: m != n ==> At(s, m) == EMPTY_LOCAL
  }

  lemma OneMore(cfg: Config, n: Name, reg: Registration, k: nat)
    requires k < 18 && Reached(cfg, n, reg, k) && Fits(cfg, n, reg, k)
    ensures Reached(cfg, n, reg, k + 1)
  {
    hide GlobalsAt, RunnerAt;
    var s0, acts, a := Start(n, reg), Story(n, reg)[..k], Story(n, reg)[k];
    var s := Exec(cfg, s0, acts);
    assert Story(n, reg)[..k + 1] == acts + [a];
    forall m ensures Taken(cfg, s.g, a, m, At(s, m)) {
      if m == n {
        assert Taken(cfg, s.g, a, n, At(s, n));
      }
    }
    assert Enabled(cfg, s, a);
    Extend(cfg, s0, acts, a);
    forall m | m != n ensures At(Apply(cfg, s, a), m) == EMPTY_LOCAL {
      Untouched(cfg, s.g, a, m);
    }
  }

  /** The story is a run, from beginning to end. */
  lemma {:induction false} ItHappened(cfg: Config, n: Name, reg: Registration, k: nat)
    requires Owned(cfg, n) && reg.scaleSet == cfg.scaleSet && k <= 18
    ensures Reached(cfg, n, reg, k)
  {
    if k > 0 {
      hide Reached, Fits;
      ItHappened(cfg, n, reg, k - 1);
      if k - 1 < 8 {
        FirstFits(cfg, n, reg, k - 1);
      } else if k - 1 < 13 {
        SecondFits(cfg, n, reg, k - 1);
      } else {
        LastFits(cfg, n, reg, k - 1);
      }
      OneMore(cfg, n, reg, k - 1);
    }
  }

  // ----- Its two rounds -----

  function One(n: Name, v: View): map<Name, View> {
    map[n := v]
  }

  /** Two listings, at these lengths of the story. */
  function Looked(n: Name, reg: Registration, k: nat): Sight
    requires k < 18
  {
    Sight(map[n := UP], map[], Story(n, reg)[..k], Story(n, reg)[..k + 1])
  }

  function FirstTrace(n: Name, reg: Registration): Trace {
    Trace(true, true, map[], Looked(n, reg, 1), One(n, IDLE), Story(n, reg)[..3], One(n, IDLE), None, {}, 0,
          One(n, IDLE), One(n, IDLE), map[n := Pass(4, 4, 0, 0, 0, None, true)], 4, Story(n, reg)[..4],
          Shrunk({n}, {n}, [Spare(n, None)], Some(LATER)), 0, 0, 0, 0)
  }

  function SecondTrace(n: Name, reg: Registration): Trace {
    Trace(true, true, One(n, GIVEN_UP), Looked(n, reg, 9), One(n, GIVEN_UP), Story(n, reg)[..11], One(n, GIVEN_UP),
          None, {}, LATER, One(n, GIVEN_UP), One(n, GOING),
          map[n := Pass(12, 16, LATER, LATER, LATER, Some(LATER + TEARDOWN_POLL_DELAY), true)], 12,
          Story(n, reg)[..16], Unscaled, LATER, LATER, LATER, LATER)
  }

  function FirstRound(n: Name, reg: Registration): Round {
    Round(Turn(0, FirstTrace(n, reg), One(n, GIVEN_UP)), [], Story(n, reg)[..7], 0, 0)
  }

  function SecondRound(n: Name, reg: Registration): Round {
    Round(Turn(0, SecondTrace(n, reg), One(n, GOING)), Story(n, reg)[..8], Story(n, reg), LATER, LATER)
  }

  lemma GivesUp(cfg: Config, n: Name)
    ensures Scales(cfg, One(n, IDLE), One(n, GIVEN_UP), 0, Shrunk({n}, {n}, [Spare(n, None)], Some(LATER)), 0, 0)
  {
    var vs, order := One(n, IDLE), [Spare(n, None)];
    assert ActiveSet(vs) == {n} && CandidateSet(vs, 0) == {n};
    SettledResult(order);
    assert order[..1] == order && order[0].name == n;
    assert Names(order) == {n};
    assert Chosen(vs, {n}, {n}, order);
    assert ScaledDown(vs, One(n, GIVEN_UP), {n}, {n}, 0, 0, Some(LATER));
  }

  lemma FirstCycles(cfg: Config, n: Name, reg: Registration)
    requires ValidConfig(cfg) && cfg.maxRunners == 0
    ensures Cycles(cfg, 0, FirstTrace(n, reg), One(n, GIVEN_UP))
  {
    hide Scales, Story;
    var vs, tr := One(n, IDLE), FirstTrace(n, reg);
    assert Pruned(vs) == vs && ActiveSet(vs) == {n};
    GivesUp(cfg, n);
    assert Joined(tr.heard, tr.joined, tr.sight.found, tr.sight.disks);
  }

  lemma SecondCycles(cfg: Config, n: Name, reg: Registration)
    requires ValidConfig(cfg) && cfg.maxRunners == 0
    ensures Cycles(cfg, 0, SecondTrace(n, reg), One(n, GOING))
  {
    hide Story;
    var tr := SecondTrace(n, reg);
    assert ActiveSet(One(n, GIVEN_UP)) == {} && ActiveSet(One(n, GOING)) == {};
    assert Pruned(One(n, GOING)) == One(n, GOING);
    assert Joined(tr.heard, tr.joined, tr.sight.found, tr.sight.disks);
  }

  /** Part of the story goes on with more of it. */
  lemma GoesOn(n: Name, reg: Registration, i: nat, j: nat)
    requires i <= j <= 18
    ensures Grew(Story(n, reg)[..i], Story(n, reg)[..j])
  {
  }

  /** What the listings at `k` and `k + 1` show, and the time it then is. */
  lemma SeesUp(cfg: Config, n: Name, reg: Registration, k: nat)
    requires Owned(cfg, n) && reg.scaleSet == cfg.scaleSet && (k == 1 || k == 9)
    ensures InstancesAt(cfg, Start(n, reg), Story(n, reg)[..k], map[n := UP])
    ensures DisksAt(cfg, Start(n, reg), Story(n, reg)[..k + 1], map[])
  {
    hide Run;
    ItHappened(cfg, n, reg, k);
    ItHappened(cfg, n, reg, k + 1);
  }

  lemma TimeAt(cfg: Config, n: Name, reg: Registration, k: nat)
    requires Owned(cfg, n) && reg.scaleSet == cfg.scaleSet && k <= 18
    ensures Legal(cfg, Start(n, reg), Story(n, reg)[..k])
    ensures ClockAfter(Start(n, reg).g.now, Story(n, reg)[..k]) == if k < 8 then 0 else LATER
  {
    hide Run, ClockAfter, Story;
    ItHappened(cfg, n, reg, k);
    ClockOfRun(cfg, Start(n, reg), Story(n, reg)[..k]);
  }

  lemma FirstSighted(cfg: Config, n: Name, reg: Registration)
    requires Owned(cfg, n) && reg.scaleSet == cfg.scaleSet
    ensures Sighted(cfg, Start(n, reg), [], Story(n, reg)[..7], Looked(n, reg, 1))
  {
    hide InstancesAt, DisksAt;
    SeesUp(cfg, n, reg, 1);
    GoesOn(n, reg, 2, 7);
  }

  lemma SecondSighted(cfg: Config, n: Name, reg: Registration)
    requires Owned(cfg, n) && reg.scaleSet == cfg.scaleSet
    ensures Sighted(cfg, Start(n, reg), Story(n, reg)[..8], Story(n, reg), Looked(n, reg, 9))
  {
    hide InstancesAt, DisksAt;
    SeesUp(cfg, n, reg, 9);
    GoesOn(n, reg, 10, 18);
    assert Story(n, reg)[..18] == Story(n, reg);
  }

  lemma FirstAnchored(cfg: Config, n: Name, reg: Registration)
    requires Owned(cfg, n) && reg.scaleSet == cfg.scaleSet
    ensures var tr := FirstTrace(n, reg);
            Anchored(tr.planned, tr.driven, tr.own, tr.acts, tr.start, Start(n, reg).g.now)
  {
    hide ClockAfter;
    var acts := Story(n, reg)[..4];
    TimeAt(cfg, n, reg, 4);
    assert acts[..4] == acts;
  }

  lemma SecondAnchored(cfg: Config, n: Name, reg: Registration)
    requires Owned(cfg, n) && reg.scaleSet == cfg.scaleSet
    ensures var tr := SecondTrace(n, reg);
            Anchored(tr.planned, tr.driven, tr.own, tr.acts, tr.start, Start(n, reg).g.now)
  {
    hide ClockAfter;
    var acts := Story(n, reg)[..16];
    TimeAt(cfg, n, reg, 12);
    TimeAt(cfg, n, reg, 16);
    assert acts[..12] == Story(n, reg)[..12] && acts[..16] == acts;
    assert acts[15] == Issue(n, StopCall(true, true));
    assert ToldToStop(acts[..12], acts[..16], n);
  }

  lemma FirstWent(cfg: Config, n: Name, reg: Registration)
    requires ValidConfig(cfg) && cfg.maxRunners == 0 && Owned(cfg, n) && reg.scaleSet == cfg.scaleSet
    ensures var r := FirstRound(n, reg);
            Went(cfg, Start(n, reg), r) && DrainRun.Listed(cfg, Start(n, reg), r.turn.tr.sight)
  {
    hide Cycles, Sighted, Anchored, Run, ClockAfter, Story;
    FirstCycles(cfg, n, reg);
    FirstSighted(cfg, n, reg);
    FirstAnchored(cfg, n, reg);
    TimeAt(cfg, n, reg, 0);
    TimeAt(cfg, n, reg, 1);
    TimeAt(cfg, n, reg, 2);
    TimeAt(cfg, n, reg, 7);
    GoesOn(n, reg, 2, 3);
    GoesOn(n, reg, 3, 4);
    GoesOn(n, reg, 4, 7);
    assert Story(n, reg)[..0] == [];
  }

  lemma SecondWent(cfg: Config, n: Name, reg: Registration)
    requires ValidConfig(cfg) && cfg.maxRunners == 0 && Owned(cfg, n) && reg.scaleSet == cfg.scaleSet
    ensures var r := SecondRound(n, reg);
            Went(cfg, Start(n, reg), r) && DrainRun.Listed(cfg, Start(n, reg), r.turn.tr.sight)
  {
    hide Cycles, Sighted, Anchored, Run, ClockAfter, Story;
    SecondCycles(cfg, n, reg);
    SecondSighted(cfg, n, reg);
    SecondAnchored(cfg, n, reg);
    TimeAt(cfg, n, reg, 8);
    TimeAt(cfg, n, reg, 9);
    TimeAt(cfg, n, reg, 10);
    TimeAt(cfg, n, reg, 18);
    GoesOn(n, reg, 10, 11);
    GoesOn(n, reg, 11, 16);
    GoesOn(n, reg, 16, 18);
    assert Story(n, reg)[..18] == Story(n, reg);
  }

  /** All there is to be listed is the runner, without a creation time, or a disk. */
  lemma ListedAt(cfg: Config, n: Name, reg: Registration, k: nat, m: Name)
    requires Owned(cfg, n) && reg.scaleSet == cfg.scaleSet && (k == 1 || k == 9)
    ensures DrainRun.Listed(cfg, Start(n, reg), Looked(n, reg, k))
    ensures InstanceAt(cfg, Start(n, reg), Looked(n, reg, k), m) == if m == n then Some(UP) else None
    ensures DiskAt(cfg, Start(n, reg), Looked(n, reg, k), m) == None
  {
    hide Run, Story;
    ItHappened(cfg, n, reg, k);
    ItHappened(cfg, n, reg, k + 1);
  }

  /** Nobody is told to stop before the second pair of listings. */
  lemma NotYetTold(n: Name, reg: Registration, m: Name)
    ensures !ToldToStop(Story(n, reg)[..2], Story(n, reg)[..9], m)
  {
    var acts := Story(n, reg)[..9];
    forall k | 2 <= k < 9 ensures !acts[k].Issue? {
    }
  }

  lemma AgedAt(cfg: Config, n: Name, reg: Registration, k: nat)
    requires Owned(cfg, n) && reg.scaleSet == cfg.scaleSet && (k == 1 || k == 9)
    ensures DrainRun.Listed(cfg, Start(n, reg), Looked(n, reg, k))
    ensures Aged(cfg, Start(n, reg), Looked(n, reg, k), 0) && DrainRun.Detached(cfg, Start(n, reg), Looked(n, reg, k))
  {
    hide Run, Story, InstanceAt, DiskAt;
    ListedAt(cfg, n, reg, k, n);
    forall m ensures InstanceAt(cfg, Start(n, reg), Looked(n, reg, k), m) == (if m == n then Some(UP) else None)
      ensures DiskAt(cfg, Start(n, reg), Looked(n, reg, k), m) == None
    {
      ListedAt(cfg, n, reg, k, m);
    }
  }

  lemma CalmBetween(cfg: Config, n: Name, reg: Registration)
    requires Owned(cfg, n) && reg.scaleSet == cfg.scaleSet
    ensures DrainRun.Listed(cfg, Start(n, reg), Looked(n, reg, 1))
    ensures DrainRun.Listed(cfg, Start(n, reg), Looked(n, reg, 9))
    ensures Calm(cfg, Start(n, reg), Looked(n, reg, 1), Looked(n, reg, 9))
  {
    hide Run, Story, InstanceAt, DiskAt, ToldToStop;
    ListedAt(cfg, n, reg, 1, n);
    ListedAt(cfg, n, reg, 9, n);
    forall m | m != n ensures InstanceAt(cfg, Start(n, reg), Looked(n, reg, 9), m) == None {
      ListedAt(cfg, n, reg, 9, m);
    }
    NotYetTold(n, reg, n);
  }

  lemma WorldSettles(cfg: Config, n: Name, reg: Registration)
    requires ValidConfig(cfg) && cfg.maxRunners == 0 && Owned(cfg, n) && reg.scaleSet == cfg.scaleSet
    ensures var rs := [FirstRound(n, reg), SecondRound(n, reg)];
            Rounds(cfg, Start(n, reg), rs) && Settling(cfg, Start(n, reg), rs, 0)
  {
    hide Went, Run, Story, Aged, Calm, DrainRun.Detached;
    FirstWent(cfg, n, reg);
    SecondWent(cfg, n, reg);
    GoesOn(n, reg, 7, 8);
    var a, b := FirstRound(n, reg), SecondRound(n, reg);
    assert DrainRun.Next(a, b);
    assert a.turn.tr.sight == Looked(n, reg, 1) && b.turn.tr.sight == Looked(n, reg, 9);
    AgedAt(cfg, n, reg, 1);
    AgedAt(cfg, n, reg, 9);
    CalmBetween(cfg, n, reg);
  }

  /** The bound of three is tight: in a settling world two clean rounds, with nobody at
      work, may leave a runner. */
  lemma TwoMayLeaveSome(cfg: Config, n: Name, reg: Registration)
    requires ValidConfig(cfg) && cfg.maxRunners == 0 && Owned(cfg, n) && reg.scaleSet == cfg.scaleSet
    ensures exists origin: Sys, rs: seq<Round> ::
              Init(cfg, origin) && |rs| == 2 && Rounds(cfg, origin, rs) && Settling(cfg, origin, rs, 0) &&
              IdleUnlessGoing(rs[0].turn.tr.heard) &&
              forall k :: 0 <= k < 2 ==> rs[k].turn.tr.clean && 0 <= rs[k].from && rs[k].turn.after != map[]
  {
    hide Rounds, Settling;
    WorldSettles(cfg, n, reg);
    var rs := [FirstRound(n, reg), SecondRound(n, reg)];
    assert n in rs[0].turn.after && n in rs[1].turn.after;
    assert Init(cfg, Start(n, reg));
  }
}
