/** From the cycles themselves to a drained scale set: three of them suffice in a world
    that settles, as its own cells tell. */
module DrainRun {
  import opened Types
  import opened Protocol
  import opened Invariant
  import opened System
  import opened Clouds
  import opened Runners
  import opened Teardowns
  import opened Marking
  import opened Capacity
  import opened Scalers
  import opened Observing
  import opened Driving
  import opened Reconciling
  import opened Drain

  // ----- The world, at the moments it was listed -----

  ghost function InstanceAt(cfg: Config, origin: Sys, g: Sight, n: Name): Option<Instance>
    requires Legal(cfg, origin, g.first)
  {
    At(Exec(cfg, origin, g.first), n).cell.inst
  }

  ghost function DiskAt(cfg: Config, origin: Sys, g: Sight, n: Name): Option<Disk>
    requires Legal(cfg, origin, g.second)
  {
    At(Exec(cfg, origin, g.second), n).cell.disk
  }

  ghost predicate Listed(cfg: Config, origin: Sys, g: Sight) {
    Legal(cfg, origin, g.first) && Legal(cfg, origin, g.second)
  }

  predicate Up(i: Option<Instance>) {
    i.Some? && !InstanceHalted(i.value.runState)
  }

  /** Everything listed was past its grace period at `t` already. */
  ghost predicate Aged(cfg: Config, origin: Sys, g: Sight, t: Time)
    requires Listed(cfg, origin, g)
  {
    forall n :: Owned(cfg, n) ==>
      && (var i := InstanceAt(cfg, origin, g, n); i.Some? ==> PastGrace(i.value.created, t))
      && (var d := DiskAt(cfg, origin, g, n); d.Some? ==> PastGrace(d.value.created, t))
  }

  /** Disks without an instance have detached. */
  ghost predicate Detached(cfg: Config, origin: Sys, g: Sight)
    requires Listed(cfg, origin, g)
  {
    forall n :: Owned(cfg, n) ==>
      !DiskBlocked(EMPTY_VIEW.(instance := InstanceAt(cfg, origin, g, n), disk := DiskAt(cfg, origin, g, n)))
  }

  /** Since the first listing nothing came up, and what was stopping or told to stop has stopped. */
  ghost predicate Calm(cfg: Config, origin: Sys, a: Sight, b: Sight)
    requires Listed(cfg, origin, a) && Listed(cfg, origin, b)
  {
    forall n :: Owned(cfg, n) && Up(InstanceAt(cfg, origin, b, n)) ==>
      && Up(InstanceAt(cfg, origin, a, n)) && InstanceAt(cfg, origin, a, n).value.runState != Stopping
      && !ToldToStop(a.second, b.first, n)
  }

  // ----- One cycle after another -----

  /** One cycle, with the history and the clock around it. */
  datatype Round = Round(turn: Turn, before: seq<Action>, end: seq<Action>, from: Time, to: Time)

  /** Nobody is busy but those being torn down. */
  ghost predicate IdleUnlessGoing(vs: map<Name, View>) {
    forall n :: n in vs ==> (vs[n].busy ==> vs[n].teardown.Some?)
  }

  /** No window is longer than the delay. */
  ghost predicate WindowsShortAt(vs: map<Name, View>, t: Time) {
    forall n :: n in vs && vs[n].teardown.Some? && vs[n].teardown.value.removalAfter.Some? ==>
      vs[n].teardown.value.removalAfter.value <= t + SCALE_DOWN_CANCELLATION_DELAY
  }

  /** The round was a cycle of the run, and heard of no job. */
  ghost predicate Went(cfg: Config, origin: Sys, r: Round)
    requires ValidConfig(cfg)
  {
    && Legal(cfg, origin, r.end)
    && r.from == ClockAfter(origin.g.now, r.before) && r.to == ClockAfter(origin.g.now, r.end)
    && r.turn.desired >= 0 && r.turn.tr.ok && Cycles(cfg, r.turn.desired, r.turn.tr, r.turn.after)
    && Rooted(cfg, origin, r.before, r.end, r.from, r.to, r.turn.tr)
    && WindowsShortAt(r.turn.tr.heard, r.from)
  }

  ghost predicate Next(a: Round, b: Round) {
    b.turn.tr.heard == a.turn.after && Grew(a.end, b.before) && a.to + SCALE_DOWN_CANCELLATION_DELAY <= b.from
  }

  /** A runner still up after a clean cycle kept its instance; it is not being deprovisioned
      unless it was told to stop. */
  lemma StillUp(v: View, m: View, q: View, p: Pass, w: Option<View>, t0: Time, t1: Time, t2: Time, t3: Time)
    requires Turned(v, m, q, p, w, t0, t1, t2, t3) && Working(v)
    ensures w.Some? && w.value.instance == v.instance
    ensures InPhase(w, Deprovisioning) && v.instance.value.runState != Stopping ==>
              m.teardown.Some? && MustStop(m) && InPhase(Some(q), Deprovisioning)
  {
  }

  lemma StillIdle(v: View, m: View, q: View, p: Pass, w: Option<View>, t0: Time, t1: Time, t2: Time, t3: Time)
    requires Turned(v, m, q, p, w, t0, t1, t2, t3) && (v.busy ==> v.teardown.Some?)
    ensures w.Some? && w.value.busy ==> w.value.teardown.Some?
  {
  }

  /** The stops of the first cycle lie between the two listings. */
  lemma ToldBetween(cfg: Config, origin: Sys, a: Round, b: Round, n: Name)
    requires ValidConfig(cfg) && Went(cfg, origin, a) && Went(cfg, origin, b) && Next(a, b)
    requires var tr := a.turn.tr;
             n in tr.planned && n in tr.driven && n in tr.own && tr.own[n].clean && tr.planned[n].teardown.Some? &&
             MustStop(tr.planned[n]) && InPhase(Some(tr.driven[n]), Deprovisioning)
    ensures ToldToStop(a.turn.tr.sight.second, b.turn.tr.sight.first, n)
  {
    hide Cycles, ToldToStop, Run;
    var tr := a.turn.tr;
    var p := tr.own[n];
    assert Within(tr.acts, tr.start, origin.g.now, n, p) && Told(tr.acts, n, tr.planned[n], tr.driven[n], p);
    assert Grew(tr.acts[..p.to], b.turn.tr.sight.first);
    assert Grew(tr.sight.second, tr.acts[..p.from]);
    ToldBefore(tr.sight.second, tr.acts[..p.from], tr.acts[..p.to], n);
    ToldBefore(tr.sight.second, tr.acts[..p.to], b.turn.tr.sight.first, n);
  }

  /** A world that settles makes one clean cycle follow another. */
  lemma SettledFollow(cfg: Config, origin: Sys, a: Round, b: Round)
    requires ValidConfig(cfg) && cfg.maxRunners == 0 && Went(cfg, origin, a) && Went(cfg, origin, b) && Next(a, b)
    requires a.turn.tr.clean
    requires Listed(cfg, origin, a.turn.tr.sight) && Listed(cfg, origin, b.turn.tr.sight)
    requires Calm(cfg, origin, a.turn.tr.sight, b.turn.tr.sight) && Detached(cfg, origin, b.turn.tr.sight)
    ensures Follow(a.turn, b.turn)
  {
    hide Cycles, Quiet, Run;
    forall n | n in b.turn.tr.joined
      ensures Quiet(OrEmpty(Lookup(a.turn.after, n)), Lookup(b.turn.tr.sight.found, n),
              Lookup(b.turn.tr.sight.disks, n))
    {
      QuietHere(cfg, origin, a, b, n);
    }
  }

  lemma QuietHere(cfg: Config, origin: Sys, a: Round, b: Round, n: Name)
    requires ValidConfig(cfg) && cfg.maxRunners == 0 && Went(cfg, origin, a) && Went(cfg, origin, b) && Next(a, b)
    requires a.turn.tr.clean
    requires Listed(cfg, origin, a.turn.tr.sight) && Listed(cfg, origin, b.turn.tr.sight)
    requires Calm(cfg, origin, a.turn.tr.sight, b.turn.tr.sight) && Detached(cfg, origin, b.turn.tr.sight)
    ensures Quiet(OrEmpty(Lookup(a.turn.after, n)), Lookup(b.turn.tr.sight.found, n), Lookup(b.turn.tr.sight.disks, n))
  {
    hide Cycles, Run, Turned, ToldToStop;
    var tr, g, h := a.turn.tr, a.turn.tr.sight, b.turn.tr.sight;
    var i, d := Lookup(h.found, n), Lookup(h.disks, n);
    assert i == if Owned(cfg, n) then InstanceAt(cfg, origin, h, n) else None;
    assert d == if Owned(cfg, n) then DiskAt(cfg, origin, h, n) else None;
    if Up(i) {
      assert Lookup(g.found, n) == InstanceAt(cfg, origin, g, n);
      SeenJoined(cfg, a.turn, n);
      CycleClears(cfg, a.turn.desired, tr, a.turn.after, n);
      var w := Lookup(a.turn.after, n);
      StillUp(tr.joined[n], tr.marked[n], tr.driven[n], tr.own[n], w, tr.t0, tr.t1, tr.t2, tr.t3);
      CycleShape(cfg, a.turn, n);
      if InPhase(w, Deprovisioning) {
        ToldBetween(cfg, origin, a, b, n);
      }
    }
  }

  lemma SeenJoined(cfg: Config, t: Turn, n: Name)
    requires ValidConfig(cfg) && Cycles(cfg, t.desired, t.tr, t.after)
    requires Lookup(t.tr.sight.found, n).Some?
    ensures n in t.tr.joined && t.tr.joined[n].instance == Lookup(t.tr.sight.found, n)
  {
    assert Lookup(t.tr.joined, n) ==
            JoinedView(Lookup(t.tr.heard, n), Lookup(t.tr.sight.found, n), Lookup(t.tr.sight.disks, n));
  }

  /** With nobody wanted nothing is reclaimed, and in a clean cycle every pass is clean. */
  lemma CycleShape(cfg: Config, t: Turn, n: Name)
    requires ValidConfig(cfg) && cfg.maxRunners == 0 && t.desired >= 0 && t.tr.clean
    requires Cycles(cfg, t.desired, t.tr, t.after) && n in t.tr.joined
    ensures t.tr.planned == t.tr.marked && n in t.tr.planned && n in t.tr.driven && n in t.tr.own && t.tr.own[n].clean
  {
    NothingToScaleUp(t.tr.marked, t.tr.planned, t.tr.back, t.tr.reclaimedAt);
  }

  /** A cycle over an aged fleet at ease is one a drain can count on, and leaves it idle. */
  lemma AgedReady(cfg: Config, origin: Sys, r: Round, t: Time)
    requires ValidConfig(cfg) && Went(cfg, origin, r) && r.turn.tr.clean && t <= r.from
    requires Listed(cfg, origin, r.turn.tr.sight) && Aged(cfg, origin, r.turn.tr.sight, t)
    requires IdleUnlessGoing(r.turn.tr.heard)
    ensures Ready(r.turn.tr)
  {
    hide Run, Cycles, Ripe;
    var tr, g := r.turn.tr, r.turn.tr.sight;
    forall n | n in tr.joined ensures Ripe(tr.joined[n], tr.t0) {
      assert Lookup(g.found, n) == if Owned(cfg, n) then InstanceAt(cfg, origin, g, n) else None;
      assert Lookup(g.disks, n) == if Owned(cfg, n) then DiskAt(cfg, origin, g, n) else None;
      JoinedAs(cfg, r.turn, n);
      RipeOne(Lookup(tr.heard, n), Lookup(g.found, n), Lookup(g.disks, n), tr.joined[n], t, r.from, tr.t0);
    }
  }

  lemma JoinedAs(cfg: Config, t: Turn, n: Name)
    requires ValidConfig(cfg) && Cycles(cfg, t.desired, t.tr, t.after) && n in t.tr.joined
    ensures JoinedView(Lookup(t.tr.heard, n), Lookup(t.tr.sight.found, n), Lookup(t.tr.sight.disks, n)) ==
            Some(t.tr.joined[n])
  {
    assert Lookup(t.tr.joined, n) ==
            JoinedView(Lookup(t.tr.heard, n), Lookup(t.tr.sight.found, n), Lookup(t.tr.sight.disks, n));
  }

  lemma RipeOne(h: Option<View>, i: Option<Instance>, d: Option<Disk>, v: View, t: Time, from: Time, t0: Time)
    requires JoinedView(h, i, d) == Some(v) && t <= from <= t0
    requires i.Some? ==> PastGrace(i.value.created, t)
    requires d.Some? ==> PastGrace(d.value.created, t)
    requires h.Some? && h.value.busy ==> h.value.teardown.Some?
    requires h.Some? && h.value.teardown.Some? && h.value.teardown.value.removalAfter.Some? ==>
               h.value.teardown.value.removalAfter.value <= from + SCALE_DOWN_CANCELLATION_DELAY
    ensures Ripe(v, t0)
  {
  }

  lemma LeavesIdle(cfg: Config, t: Turn)
    requires ValidConfig(cfg) && cfg.maxRunners == 0 && t.desired >= 0 && t.tr.clean
    requires Cycles(cfg, t.desired, t.tr, t.after) && IdleUnlessGoing(t.tr.heard)
    ensures IdleUnlessGoing(t.after)
  {
    hide Cycles, Turned;
    CycleKeys(cfg, t.desired, t.tr, t.after);
    forall n | n in t.after ensures t.after[n].busy ==> t.after[n].teardown.Some? {
      CycleClears(cfg, t.desired, t.tr, t.after, n);
      JoinedIdle(cfg, t, n);
      StillIdle(t.tr.joined[n], t.tr.marked[n], t.tr.driven[n], t.tr.own[n], Lookup(t.after, n),
                t.tr.t0, t.tr.t1, t.tr.t2, t.tr.t3);
    }
  }

  lemma JoinedIdle(cfg: Config, t: Turn, n: Name)
    requires ValidConfig(cfg) && Cycles(cfg, t.desired, t.tr, t.after) && IdleUnlessGoing(t.tr.heard) &&
            n in t.tr.joined
    ensures t.tr.joined[n].busy ==> t.tr.joined[n].teardown.Some?
  {
    assert Lookup(t.tr.joined, n) ==
            JoinedView(Lookup(t.tr.heard, n), Lookup(t.tr.sight.found, n), Lookup(t.tr.sight.disks, n));
  }

  // ----- Three rounds -----

  /** The rounds follow one another in one run. */
  ghost predicate Rounds(cfg: Config, origin: Sys, rs: seq<Round>)
    requires ValidConfig(cfg)
  {
    && (forall i :: 0 <= i < |rs| ==> Went(cfg, origin, rs[i]) && Listed(cfg, origin, rs[i].turn.tr.sight))
    && (forall i, j :: 0 <= i && j == i + 1 && j < |rs| ==> Next(rs[i], rs[j]))
  }

  /** The world as it was listed: past grace at `t`, and settled from one listing to the next. */
  ghost predicate Settling(cfg: Config, origin: Sys, rs: seq<Round>, t: Time)
    requires ValidConfig(cfg) && Rounds(cfg, origin, rs)
  {
    && (forall i :: 0 <= i < |rs| ==> Aged(cfg, origin, rs[i].turn.tr.sight, t))
    && (forall i, j :: 0 <= i && j == i + 1 && j < |rs| ==>
          Calm(cfg, origin, rs[i].turn.tr.sight, rs[j].turn.tr.sight) && Detached(cfg, origin, rs[j].turn.tr.sight))
  }

  /** Three clean rounds in a settling world leave nothing tracked. */
  lemma WorldDrains(cfg: Config, origin: Sys, rs: seq<Round>, t: Time)
    requires ValidConfig(cfg) && cfg.maxRunners == 0 && |rs| == 3 && Rounds(cfg, origin, rs)
    requires Settling(cfg, origin, rs, t) && forall i :: 0 <= i < 3 ==> rs[i].turn.tr.clean && t <= rs[i].from
    requires IdleUnlessGoing(rs[0].turn.tr.heard)
    ensures exists k :: 0 <= k < 3 && rs[k].turn.after == map[]
  {
    hide Cycles, Rooted, Calm, Aged, Detached, Run, Ready, Follow, Legal;
    var a, b, c := rs[0], rs[1], rs[2];
    assert Next(a, b) && Next(b, c);
    LeavesIdle(cfg, a.turn);
    LeavesIdle(cfg, b.turn);
    AgedReady(cfg, origin, a, t);
    AgedReady(cfg, origin, b, t);
    AgedReady(cfg, origin, c, t);
    SettledFollow(cfg, origin, a, b);
    SettledFollow(cfg, origin, b, c);
    var turns := [a.turn, b.turn, c.turn];
    assert Draining(cfg, turns);
    DrainedInThree(cfg, turns);
    var k :| 0 <= k < 3 && turns[k].after == map[];
    assert turns[0] == rs[0].turn && turns[1] == rs[1].turn && turns[2] == rs[2].turn;
    assert k == 0 || k == 1 || k == 2;
    assert rs[k].turn.after == map[];
  }

  // ----- Running it -----

  /** The world goes on, and at least the cancellation delay passes. */
  method Wait(cloud: Cloud, st: ReconcileState)
    requires Wired(cloud, st)
    modifies cloud
    ensures Wired(cloud, st) && cloud.sys.g.stage == old(cloud.sys).g.stage && Onward(cloud)
    ensures old(cloud.now) + SCALE_DOWN_CANCELLATION_DELAY <= cloud.now && cloud.trouble == old(cloud.trouble)
  {
    hide Run, Init, GrewAlone;
    var now := cloud.Now();
    cloud.EnvMove(Tick(now + SCALE_DOWN_CANCELLATION_DELAY));
  }

  lemma WindowsShortNow(cloud: Cloud, st: ReconcileState)
    requires Wired(cloud, st)
    ensures st.Valid() && WindowsShortAt(st.Views(), cloud.now)
  {
    hide Run, Init;
    cloud.Invariant();
    forall n | n in st.Views()
      ensures st.Views()[n].teardown.Some? && st.Views()[n].teardown.value.removalAfter.Some? ==>
                st.Views()[n].teardown.value.removalAfter.value <= cloud.now + SCALE_DOWN_CANCELLATION_DELAY
    {
      SeenOrNot(cloud, st, n);
      assert LocalInv(cloud.cfg, cloud.sys.g, n, At(cloud.sys, n));
    }
  }

  /** One cycle of the drain, recorded as a round unless it could not observe. */
  method OneRound(s: Scaler, st: ReconcileState) returns (drained: bool, ghost r: Round)
    requires Wired(s.cloud, st) && s.cloud.sys.g.stage == Idle && s !in st.repr && s.jobEvents == []
    requires s.desiredRunnerCount >= 0 && s.cloud.cfg.maxRunners == 0
    modifies s`jobEvents, s`activeRunnerCount, st.repr, s.cloud
    ensures Wired(s.cloud, st) && s.cloud.sys.g.stage == Idle && Onward(s.cloud) && s.jobEvents == []
    ensures fresh(st.repr - old(st.repr)) && st.Valid() && s.cloud.Valid()
    ensures drained ==> Theorems.Drained(s.cloud.cfg, s.cloud.sys)
    ensures s.cloud.trouble == old(s.cloud.trouble) ==>
              && Went(s.cloud.cfg, s.cloud.origin, r) && Listed(s.cloud.cfg, s.cloud.origin, r.turn.tr.sight)
              && r.turn.tr.clean && r.turn.tr.heard == old(st.Views()) && r.turn.after == st.Views()
              && r.before == old(s.cloud.acts) && r.end == s.cloud.acts
              && r.from == old(s.cloud.now) && r.to == s.cloud.now
              && (drained <==> r.turn.after == map[])
  {
    hide Run, Init, Wired, Grew, GrewPassively, Cycles, AllCovered, ActiveSet, ApplyEvents, Theorems.Drained;
    hide NoLaterThanAny, Unclean, Short, WindowsShortAt, Anchored, ClockAfter;
    Unwire(s.cloud, st);
    WindowsShortNow(s.cloud, st);
    ClockNow(s.cloud);
    ghost var vs, before, from := st.Views(), s.cloud.acts, s.cloud.now;
    ApplyNone(vs);
    var result;
    ghost var tr;
    result, tr := Reconcile(s, st);
    Unwire(s.cloud, st);
    ClockNow(s.cloud);
    drained := result == ErrScaleSetDrained;
    r := Round(Turn(s.desiredRunnerCount, tr, st.Views()), before, s.cloud.acts, from, s.cloud.now);
  }

  /** The cycle after a wait. */
  method NextRound(s: Scaler, st: ReconcileState, ghost a: Round) returns (drained: bool, ghost r: Round)
    requires Wired(s.cloud, st) && s.cloud.sys.g.stage == Idle && s !in st.repr && s.jobEvents == [] && st.Valid()
    requires s.desiredRunnerCount >= 0 && s.cloud.cfg.maxRunners == 0
    modifies s`jobEvents, s`activeRunnerCount, st.repr, s.cloud
    ensures Wired(s.cloud, st) && s.cloud.sys.g.stage == Idle && Onward(s.cloud) && s.jobEvents == []
    ensures fresh(st.repr - old(st.repr)) && st.Valid() && s.cloud.Valid()
    ensures drained ==> Theorems.Drained(s.cloud.cfg, s.cloud.sys)
    ensures s.cloud.trouble == old(s.cloud.trouble) ==>
              && Went(s.cloud.cfg, s.cloud.origin, r) && Listed(s.cloud.cfg, s.cloud.origin, r.turn.tr.sight)
              && r.turn.tr.clean && r.turn.after == st.Views() && r.end == s.cloud.acts && r.to == s.cloud.now
              && old(s.cloud.now) <= r.from && (drained <==> r.turn.after == map[])
              && (a.turn.after == old(st.Views()) && a.end == old(s.cloud.acts) && a.to == old(s.cloud.now) ==>
                      Next(a, r))
  {
    hide Run, Init, Wired, Went, Listed, Theorems.Drained;
    Unwire(s.cloud, st);
    Wait(s.cloud, st);
    Unwire(s.cloud, st);
    drained, r := OneRound(s, st);
  }

  /** The rounds so far: all clean, begun no earlier than `t`, and with something left. */
  ghost predicate Unfinished(cfg: Config, origin: Sys, rs: seq<Round>, t: Time)
    requires ValidConfig(cfg)
  {
    Rounds(cfg, origin, rs) && forall i :: 0 <= i < |rs| ==>
            rs[i].turn.tr.clean && t <= rs[i].from && rs[i].turn.after != map[]
  }

  lemma StillUnfinished(cfg: Config, origin: Sys, rs: seq<Round>, r: Round, t: Time)
    requires ValidConfig(cfg) && (rs == [] || (Unfinished(cfg, origin, rs, t) && Next(rs[|rs| - 1], r)))
    requires Went(cfg, origin, r) && Listed(cfg, origin, r.turn.tr.sight) && r.turn.tr.clean && t <= r.from
    ensures Rounds(cfg, origin, rs + [r])
    ensures r.turn.after != map[] ==> Unfinished(cfg, origin, rs + [r], t)
  {
    hide Went, Listed, Next;
  }

  /** Three unfinished rounds mean that the world did not settle, or somebody was at work. */
  lemma NotSettled(cfg: Config, origin: Sys, rs: seq<Round>, t: Time)
    requires ValidConfig(cfg) && cfg.maxRunners == 0 && |rs| == 3 && Unfinished(cfg, origin, rs, t)
    ensures Rounds(cfg, origin, rs) && (IdleUnlessGoing(rs[0].turn.tr.heard) ==> !Settling(cfg, origin, rs, t))
  {
    hide Went, Listed, Next, Settling, IdleUnlessGoing;
    if IdleUnlessGoing(rs[0].turn.tr.heard) && Settling(cfg, origin, rs, t) {
      WorldDrains(cfg, origin, rs, t);
    }
  }

  /** The rounds are the cycles of one call: the first began with these records and this
      log, the last left these. */
  ghost predicate Spans(rs: seq<Round>, heard: map<Name, View>, before: seq<Action>, after: map<Name, View>,
                        end: seq<Action>)
  {
    && rs != [] && rs[0].turn.tr.heard == heard && rs[0].before == before
    && rs[|rs| - 1].turn.after == after && rs[|rs| - 1].end == end
  }

  /** Where a drain stands after a round, when nothing failed. */
  ghost predicate Stands(s: Scaler, st: ReconcileState, drained: bool, rs: seq<Round>, vs: map<Name, View>,
                         before: seq<Action>, t: Time)
    requires st.Valid() && s.cloud.Valid()
    reads s.cloud, st, st.repr
  {
    && Rounds(s.cloud.cfg, s.cloud.origin, rs) && Spans(rs, vs, before, st.Views(), s.cloud.acts)
    && (drained <==> st.Views() == map[])
    && (!drained ==> Unfinished(s.cloud.cfg, s.cloud.origin, rs, t) && rs[|rs| - 1].to == s.cloud.now)
  }

  method TwoRounds(s: Scaler, st: ReconcileState) returns (drained: bool, ghost rs: seq<Round>)
    requires Wired(s.cloud, st) && s.cloud.sys.g.stage == Idle && s !in st.repr && s.jobEvents == []
    requires s.desiredRunnerCount >= 0 && s.cloud.cfg.maxRunners == 0 && st.Valid() && s.cloud.Valid()
    modifies s`jobEvents, s`activeRunnerCount, st.repr, s.cloud
    ensures Wired(s.cloud, st) && s.cloud.sys.g.stage == Idle && Onward(s.cloud) && s.jobEvents == []
    ensures fresh(st.repr - old(st.repr)) && st.Valid() && s.cloud.Valid()
    ensures 1 <= |rs| <= 2 && (!drained ==> |rs| == 2)
    ensures drained ==> Theorems.Drained(s.cloud.cfg, s.cloud.sys)
    ensures s.cloud.trouble == old(s.cloud.trouble) ==>
              Stands(s, st, drained, rs, old(st.Views()), old(s.cloud.acts), old(s.cloud.now))
  {
    hide Run, Init, Wired, Grew, Went, Listed, Theorems.Drained, Rounds, Unfinished, Next;
    ghost var t := s.cloud.now;
    ghost var a, b;
    drained, a := OneRound(s, st);
    rs := [a];
    if s.cloud.trouble == old(s.cloud.trouble) {
      StillUnfinished(s.cloud.cfg, s.cloud.origin, [], a, t);
      assert [] + [a] == rs;
    }
    if drained {
      return;
    }
    ghost var acts := s.cloud.acts;
    drained, b := NextRound(s, st, a);
    GrewOn(old(s.cloud.acts), acts, s.cloud.acts);
    if s.cloud.trouble == old(s.cloud.trouble) {
      StillUnfinished(s.cloud.cfg, s.cloud.origin, [a], b, t);
    }
    rs := [a] + [b];
  }

  /** Up to three cycles, each at least the cancellation delay after the one before: if no
      call fails, nobody was at work and the world settles from one listing to the next,
      the drain error is returned. The rounds are the cycles this call ran, from the records
      and the log it began with to those it leaves. */
  method DrainFleet(s: Scaler, st: ReconcileState) returns (drained: bool, ghost rs: seq<Round>)
    requires Wired(s.cloud, st) && s.cloud.sys.g.stage == Idle && s !in st.repr && s.jobEvents == []
    requires s.desiredRunnerCount >= 0 && s.cloud.cfg.maxRunners == 0 && st.Valid() && s.cloud.Valid()
    modifies s`jobEvents, s`activeRunnerCount, st.repr, s.cloud
    ensures Wired(s.cloud, st) && Onward(s.cloud) && st.Valid() && s.cloud.Valid() && fresh(st.repr - old(st.repr))
    ensures 1 <= |rs| <= 3 && (!drained ==> |rs| == 3)
    ensures drained ==> Theorems.Drained(s.cloud.cfg, s.cloud.sys)
    ensures s.cloud.trouble == old(s.cloud.trouble) ==>
              && Rounds(s.cloud.cfg, s.cloud.origin, rs)
              && Spans(rs, old(st.Views()), old(s.cloud.acts), st.Views(), s.cloud.acts)
              && (drained <==> st.Views() == map[])
              && (IdleUnlessGoing(old(st.Views())) && Settling(s.cloud.cfg, s.cloud.origin, rs, old(s.cloud.now)) ==>
                    drained)
  {
    hide Run, Init, Wired, Grew, Went, Listed, Theorems.Drained, IdleUnlessGoing, Rounds, Settling, Next, Unfinished;
    ghost var t := s.cloud.now;
    drained, rs := TwoRounds(s, st);
    if drained {
      return;
    }
    ghost var acts, c := s.cloud.acts, rs[1];
    drained, c := NextRound(s, st, c);
    GrewOn(old(s.cloud.acts), acts, s.cloud.acts);
    if s.cloud.trouble == old(s.cloud.trouble) {
      StillUnfinished(s.cloud.cfg, s.cloud.origin, rs, c, t);
    }
    rs := rs + [c];
    if s.cloud.trouble == old(s.cloud.trouble) && !drained {
      NotSettled(s.cloud.cfg, s.cloud.origin, rs, t);
    }
  }
}
