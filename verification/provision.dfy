/** Provisioning several runners at once, and what becomes of each. */
module Provisioning {
  import opened Types
  import opened Protocol
  import opened Invariant
  import opened System
  import opened Clouds
  import opened Runners
  import opened Teardowns
  import opened Marking

  /** A provisioning worker: waiting for the semaphore, holding it, or done. */
  datatype Worker = Waiting | Admitted | Configured | Done(made: Option<Instance>)

  function ProvOf(w: Worker): Provision {
    match w
    case Waiting => Queued
    case Admitted => Queued
    case Configured => Registered
    case Done(made) => if made.Some? then Created(made.value) else Aborted
  }

  predicate InFlight(w: Worker) {
    w == Admitted || w == Configured
  }

  function StepsLeft(w: Worker): nat {
    match w
    case Waiting => 3
    case Admitted => 2
    case Configured => 1
    case Done(_) => 0
  }

  function AllSteps(ws: seq<Worker>): nat {
    if |ws| == 0 then 0 else AllSteps(ws[..|ws| - 1]) + StepsLeft(ws[|ws| - 1])
  }

  function Holders(ws: seq<Worker>): nat {
    if |ws| == 0 then 0 else Holders(ws[..|ws| - 1]) + (if InFlight(ws[|ws| - 1]) then 1 else 0)
  }

  /** The workers that came to nothing. */
  function Fails(ws: seq<Worker>): nat {
    if |ws| == 0 then 0 else Fails(ws[..|ws| - 1]) + (if ws[|ws| - 1] == Done(None) then 1 else 0)
  }

  function Failed(outcomes: seq<Option<Instance>>): nat {
    if |outcomes| == 0 then 0
    else Failed(outcomes[..|outcomes| - 1]) + (if outcomes[|outcomes| - 1].None? then 1 else 0)
  }

  lemma {:induction false} FailsFailed(ws: seq<Worker>, outcomes: seq<Option<Instance>>)
    requires |ws| == |outcomes| && forall i :: 0 <= i < |ws| ==> ws[i] == Done(outcomes[i])
    ensures Fails(ws) == Failed(outcomes)
  {
    if |ws| > 0 {
      FailsFailed(ws[..|ws| - 1], outcomes[..|ws| - 1]);
    }
  }

  lemma {:induction false} OneFails(ws: seq<Worker>, i: nat, w: Worker)
    requires i < |ws|
    ensures Fails(ws[i := w]) ==
            Fails(ws) - (if ws[i] == Done(None) then 1 else 0) + (if w == Done(None) then 1 else 0)
  {
    var k := |ws| - 1;
    if i < k {
      OneFails(ws[..k], i, w);
      assert ws[i := w][..k] == ws[..k][i := w];
    } else {
      assert ws[i := w][..k] == ws[..k];
    }
  }

  lemma {:induction false} OneMoves(ws: seq<Worker>, i: nat, w: Worker)
    requires i < |ws|
    ensures AllSteps(ws[i := w]) == AllSteps(ws) - StepsLeft(ws[i]) + StepsLeft(w)
    ensures Holders(ws[i := w]) == Holders(ws) - (if InFlight(ws[i]) then 1 else 0) + (if InFlight(w) then 1 else 0)
  {
    var k := |ws| - 1;
    if i < k {
      OneMoves(ws[..k], i, w);
      assert ws[i := w][..k] == ws[..k][i := w];
    } else {
      assert ws[i := w][..k] == ws[..k];
    }
  }

  lemma {:induction false} SomeHolder(ws: seq<Worker>)
    ensures Holders(ws) > 0 ==> exists i :: 0 <= i < |ws| && InFlight(ws[i])
    ensures AllSteps(ws) == 0 ==> forall i :: 0 <= i < |ws| ==> ws[i].Done?
    ensures AllSteps(ws) > 0 ==> exists i :: 0 <= i < |ws| && !ws[i].Done?
  {
    if |ws| > 0 {
      var k := |ws| - 1;
      SomeHolder(ws[..k]);
      assert ws == ws[..k] + [ws[k]];
    }
  }

  /** A worker that can move: it holds the semaphore, or the semaphore has room. */
  predicate CanMove(w: Worker, holding: nat) {
    InFlight(w) || (w == Waiting && holding < PROVISION_CONCURRENCY)
  }

  lemma SomeoneMoves(ws: seq<Worker>)
    requires AllSteps(ws) > 0
    ensures exists i :: 0 <= i < |ws| && CanMove(ws[i], Holders(ws))
  {
    SomeHolder(ws);
    if Holders(ws) > 0 {
      var i :| 0 <= i < |ws| && InFlight(ws[i]);
      assert CanMove(ws[i], Holders(ws));
    } else {
      var i :| 0 <= i < |ws| && !ws[i].Done?;
      if InFlight(ws[i]) {
        assert CanMove(ws[i], Holders(ws));
      }
      assert CanMove(ws[i], Holders(ws));
    }
  }

  /** What one step makes of a worker. */
  predicate Moves(w: Worker, next: Worker) {
    match w
    case Waiting => next == Admitted
    case Admitted => next == Configured || next == Done(None)
    case Configured => next.Done?
    case Done(_) => false
  }

  /** Some worker that can move takes its step, and no other does. */
  ghost predicate WorkerStep(a: seq<Worker>, b: seq<Worker>) {
    |b| == |a| && exists i :: 0 <= i < |a| && CanMove(a[i], Holders(a)) && Moves(a[i], b[i]) && b == a[i := b[i]]
  }

  /** The workers' states, one after another, in some interleaving from the start. */
  ghost predicate Schedule(h: seq<seq<Worker>>, count: nat) {
    && |h| > 0 && |h[0]| == count && (forall i :: 0 <= i < count ==> h[0][i] == Waiting)
    && forall k, m :: 0 <= k && m == k + 1 && m < |h| ==> WorkerStep(h[k], h[m])
  }

  lemma StepHolders(a: seq<Worker>, b: seq<Worker>)
    requires WorkerStep(a, b)
    ensures Holders(a) <= PROVISION_CONCURRENCY ==> Holders(b) <= PROVISION_CONCURRENCY
    ensures AllSteps(b) < AllSteps(a)
  {
    var i :| 0 <= i < |a| && CanMove(a[i], Holders(a)) && Moves(a[i], b[i]) && b == a[i := b[i]];
    OneMoves(a, i, b[i]);
  }

  lemma {:induction false} StartSteps(ws: seq<Worker>)
    requires forall i :: 0 <= i < |ws| ==> ws[i] == Waiting
    ensures Holders(ws) == 0 && AllSteps(ws) == 3 * |ws| && Fails(ws) == 0
  {
    if |ws| > 0 {
      StartSteps(ws[..|ws| - 1]);
    }
  }

  /** In every interleaving, at every moment, at most five workers hold the semaphore; and
      no interleaving takes more than three steps a worker. */
  lemma {:induction false} NeverTooMany(h: seq<seq<Worker>>, count: nat, k: nat)
    requires Schedule(h, count) && k < |h|
    ensures Holders(h[k]) <= 5 && AllSteps(h[k]) + k <= 3 * count
  {
    if k == 0 {
      StartSteps(h[0]);
    } else {
      NeverTooMany(h, count, k - 1);
      StepHolders(h[k - 1], h[k]);
    }
  }

  lemma ScheduleGrows(h: seq<seq<Worker>>, count: nat, b: seq<Worker>)
    requires Schedule(h, count) && WorkerStep(h[|h| - 1], b)
    ensures Schedule(h + [b], count)
  {
  }

  lemma OneStepOf(a: seq<Worker>, i: nat, next: Worker)
    requires i < |a| && CanMove(a[i], Holders(a)) && Moves(a[i], next)
    ensures WorkerStep(a, a[i := next])
  {
    var b := a[i := next];
    assert CanMove(a[i], Holders(a)) && Moves(a[i], b[i]) && b == a[i := b[i]];
  }

  /** One worker takes its next step. */
  method Work(cloud: Cloud, name: Name, w: Worker, holding: nat) returns (next: Worker)
    requires cloud.Valid() && cloud.sys.g.stage == Stage.Provisioning
    requires CanMove(w, holding) && At(cloud.sys, name).note.prov == ProvOf(w)
    modifies cloud
    ensures cloud.Valid() && OneMoved(old(cloud.sys), cloud.sys, name) && Onward(cloud)
    ensures At(cloud.sys, name).view == At(old(cloud.sys), name).view
    ensures At(cloud.sys, name).note.prov == ProvOf(next)
    ensures Moves(w, next)
    ensures StepsLeft(next) < StepsLeft(w)
    ensures InFlight(next) ==> InFlight(w) || holding < PROVISION_CONCURRENCY
    ensures next == Done(None) ==> old(cloud.trouble) < cloud.trouble
  {
    hide Run, Init;
    match w
    case Waiting => next := Admitted;
    case Admitted =>
      var ok := cloud.GenerateJitRunnerConfig(name);
      next := if ok then Configured else Done(None);
    case Configured =>
      var made := cloud.InstanceCreate(name);
      next := Done(made);
  }

  /** Every worker's progress is what the run says of its name. */
  ghost predicate InStep(s: Sys, names: seq<Name>, ws: seq<Worker>) {
    |ws| == |names| && forall i :: 0 <= i < |names| ==> At(s, names[i]).note.prov == ProvOf(ws[i])
  }

  /** Provisioning `names` has told the controller nothing else. */
  ghost predicate Apart(s: Sys, r: Sys, names: seq<Name>) {
    && (forall n :: At(r, n).view == At(s, n).view)
    && (forall n :: n !in names ==> At(r, n).note == At(s, n).note)
  }

  lemma KeepInStep(s0: Sys, s: Sys, r: Sys, names: seq<Name>, ws: seq<Worker>, i: nat, next: Worker)
    requires InStep(s, names, ws) && Apart(s0, s, names) && i < |names|
    requires forall i, j :: 0 <= i < j < |names| ==> names[i] != names[j]
    requires OneMoved(s, r, names[i]) && At(r, names[i]).view == At(s, names[i]).view
    requires At(r, names[i]).note.prov == ProvOf(next)
    ensures InStep(r, names, ws[i := next]) && Apart(s0, r, names)
  {
  }

  lemma StartInStep(s: Sys, names: seq<Name>, ws: seq<Worker>)
    requires |ws| == |names| && forall i :: 0 <= i < |ws| ==> ws[i] == Waiting
    requires forall i :: 0 <= i < |names| ==> At(s, names[i]).note.prov == Queued
    ensures InStep(s, names, ws) && Apart(s, s, names)
  {
  }

  /** The workers went through these states at these moments of the run: from `before` on,
      each moment a continuation of the last, the run says of every name what its worker's
      state is. */
  ghost predicate Happened(cfg: Config, origin: Sys, before: seq<Action>, names: seq<Name>, h: seq<seq<Worker>>,
                           ms: seq<seq<Action>>) {
    && |ms| == |h| > 0 && ms[0] == before
    && (forall k :: 0 <= k < |h| ==> Legal(cfg, origin, ms[k]) && InStep(Exec(cfg, origin, ms[k]), names, h[k]))
    && forall k, m :: 0 <= k && m == k + 1 && m < |ms| ==> Grew(ms[k], ms[m])
  }

  lemma HappenedOn(cfg: Config, origin: Sys, before: seq<Action>, names: seq<Name>, h: seq<seq<Worker>>,
                   ms: seq<seq<Action>>, b: seq<Worker>, acts: seq<Action>)
    requires Happened(cfg, origin, before, names, h, ms) && Grew(ms[|ms| - 1], acts)
    requires Legal(cfg, origin, acts) && InStep(Exec(cfg, origin, acts), names, b)
    ensures Happened(cfg, origin, before, names, h + [b], ms + [acts])
  {
    hide InStep, Grew, Run;
  }

  lemma HappenedFirst(cloud: Cloud, names: seq<Name>, ws: seq<Worker>)
    requires cloud.Valid() && InStep(cloud.sys, names, ws)
    ensures Happened(cloud.cfg, cloud.origin, cloud.acts, names, [ws], [cloud.acts])
  {
    hide InStep, Grew, Run, Init;
  }

  lemma HappenedNow(cloud: Cloud, before: seq<Action>, names: seq<Name>, h: seq<seq<Worker>>, ms: seq<seq<Action>>,
                    acts: seq<Action>, b: seq<Worker>)
    requires Happened(cloud.cfg, cloud.origin, before, names, h, ms) && ms[|ms| - 1] == acts
    requires cloud.Valid() && Grew(acts, cloud.acts) && InStep(cloud.sys, names, b)
    ensures Happened(cloud.cfg, cloud.origin, before, names, h + [b], ms + [cloud.acts])
  {
    hide InStep, Grew, Run, Init, Happened;
    HappenedOn(cloud.cfg, cloud.origin, before, names, h, ms, b, cloud.acts);
  }

  /** Runs the workers in any interleaving until all are done: each leaves one outcome. */
  method RunWorkers(cloud: Cloud, names: seq<Name>)
    returns (outcomes: seq<Option<Instance>>, ghost history: seq<seq<Worker>>, ghost moments: seq<seq<Action>>)
    requires cloud.Valid() && cloud.sys.g.stage == Stage.Provisioning
    requires forall i, j :: 0 <= i < j < |names| ==> names[i] != names[j]
    requires forall i :: 0 <= i < |names| ==> At(cloud.sys, names[i]).note.prov == Queued
    modifies cloud
    ensures cloud.Valid() && cloud.sys.g.stage == Stage.Provisioning && Onward(cloud)
    ensures Apart(old(cloud.sys), cloud.sys, names)
    ensures |outcomes| == |names| && Schedule(history, |names|)
    ensures Happened(cloud.cfg, cloud.origin, old(cloud.acts), names, history, moments)
    ensures moments[|moments| - 1] == cloud.acts
    ensures var last := history[|history| - 1];
            |last| == |names| && forall i :: 0 <= i < |names| ==> last[i] == Done(outcomes[i])
    ensures forall i :: 0 <= i < |names| ==> At(cloud.sys, names[i]).note.prov == ProvOf(Done(outcomes[i]))
    ensures old(cloud.trouble) + Failed(outcomes) <= cloud.trouble
  {
    hide Run, Init, InStep, Apart, Grew, AllSteps, Holders, Fails, Failed, Schedule, WorkerStep, Happened;
    var workers := new Worker[|names|](_ => Waiting);
    var holding := 0;
    StartSteps(workers[..]);
    GrewNone(cloud.acts);
    StartInStep(cloud.sys, names, workers[..]);
    history, moments := [workers[..]], [cloud.acts];
    HappenedFirst(cloud, names, workers[..]);
    ScheduleStarts(workers[..]);
    while AllSteps(workers[..]) > 0
      invariant cloud.Valid() && cloud.sys.g.stage == Stage.Provisioning && Onward(cloud)
      invariant Apart(old(cloud.sys), cloud.sys, names) && InStep(cloud.sys, names, workers[..])
      invariant holding == Holders(workers[..])
      invariant |history| > 0 && history[|history| - 1] == workers[..] && Schedule(history, |names|)
      invariant Happened(cloud.cfg, cloud.origin, old(cloud.acts), names, history, moments)
      invariant |moments| > 0 && moments[|moments| - 1] == cloud.acts
      invariant old(cloud.trouble) + Fails(workers[..]) <= cloud.trouble
      decreases AllSteps(workers[..])
    {
      SomeoneMoves(workers[..]);
      var i :| 0 <= i < workers.Length && CanMove(workers[i], holding);
      ghost var before, s, acts := workers[..], cloud.sys, cloud.acts;
      var w := workers[i];
      Pace(s, names, before, i);
      var next := Work(cloud, names[i], w, holding);
      GrewOn(old(cloud.acts), acts, cloud.acts);
      KeepInStep(old(cloud.sys), s, cloud.sys, names, before, i, next);
      workers[i] := next;
      assert workers[..] == before[i := next];
      OneMoves(before, i, next);
      OneFails(before, i, next);
      OneStepOf(before, i, next);
      ScheduleGrows(history, |names|, workers[..]);
      HappenedNow(cloud, old(cloud.acts), names, history, moments, acts, workers[..]);
      history, moments := history + [workers[..]], moments + [cloud.acts];
      holding := holding - (if InFlight(w) then 1 else 0) + (if InFlight(next) then 1 else 0);
    }
    SomeHolder(workers[..]);
    assert forall i :: 0 <= i < workers.Length ==> workers[..][i] == workers[i];
    outcomes := seq(workers.Length, i requires 0 <= i < workers.Length &&
            workers[i].Done? reads workers => workers[i].made);
    FailsFailed(workers[..], outcomes);
    AllInStep(cloud.sys, names, workers[..], outcomes);
  }

  lemma ScheduleStarts(ws: seq<Worker>)
    requires forall i :: 0 <= i < |ws| ==> ws[i] == Waiting
    ensures Schedule([ws], |ws|)
  {
  }

  lemma Pace(s: Sys, names: seq<Name>, ws: seq<Worker>, i: nat)
    requires InStep(s, names, ws) && i < |ws|
    ensures |names| == |ws| && At(s, names[i]).note.prov == ProvOf(ws[i])
  {
  }

  lemma AllInStep(s: Sys, names: seq<Name>, ws: seq<Worker>, outcomes: seq<Option<Instance>>)
    requires InStep(s, names, ws) && |outcomes| == |ws|
    requires forall i :: 0 <= i < |ws| ==> ws[i] == Done(outcomes[i])
    ensures |names| == |ws|
    ensures forall i :: 0 <= i < |names| ==> At(s, names[i]).note.prov == ProvOf(Done(outcomes[i]))
  {
  }

  // ----- Merging the outcomes -----

  /** What one outcome makes of its name: a runner with its instance, or a runner under
      a permanent teardown, since a failed create may still exist. */
  function OutcomeView(o: Option<Instance>): View {
    if o.Some? then EMPTY_VIEW.(instance := o) else Doomed(EMPTY_VIEW)
  }

  ghost predicate MergedSoFar(vs: map<Name, View>, ws: map<Name, View>, names: seq<Name>,
                              outcomes: seq<Option<Instance>>, k: nat)
    requires k <= |names| == |outcomes|
  {
    && (forall i :: 0 <= i < k ==> names[i] in ws && ws[names[i]] == OutcomeView(outcomes[i]))
    && (forall n :: n !in names[..k] ==> Lookup(ws, n) == Lookup(vs, n))
  }

  lemma MergeStep(vs: map<Name, View>, mid: map<Name, View>, ws: map<Name, View>, names: seq<Name>,
                  outcomes: seq<Option<Instance>>, k: nat)
    requires k < |names| == |outcomes| && MergedSoFar(vs, mid, names, outcomes, k)
    requires forall i, j :: 0 <= i < j < |names| ==> names[i] != names[j]
    requires ws == mid[names[k] := OutcomeView(outcomes[k])]
    ensures MergedSoFar(vs, ws, names, outcomes, k + 1)
  {
    assert names[..k + 1] == names[..k] + [names[k]];
  }

  /** The records take in one outcome. */
  method FileOutcome(cloud: Cloud, st: ReconcileState, name: Name, o: Option<Instance>)
    requires cloud.Valid() && st.Valid() && cloud !in st.repr && name !in st.runners
    modifies st.repr, cloud
    ensures cloud.Valid() && cloud !in st.repr && cloud.sys == old(cloud.sys) && cloud.acts == old(cloud.acts)
    ensures old(cloud.trouble) <= cloud.trouble
    ensures st.Valid() && fresh(st.repr - old(st.repr))
    ensures st.desiredRunnerCount == old(st.desiredRunnerCount) && st.lastGitHubAudit == old(st.lastGitHubAudit)
    ensures st.Views() == old(st.Views())[name := OutcomeView(o)]
  {
    hide Run, Init, Doomed;
    if o.Some? {
      var r := Find(st, name);
      SetInstance(st, r, o);
    } else {
      CondemnByName(cloud, st, name);
    }
  }

  lemma OutcomeJoins(l: Local, o: Option<Instance>, now: Time)
    requires l.view.None? && l.note.prov == ProvOf(Done(o))
    ensures l.note.prov.Created? || l.note.prov == Aborted
    ensures ProvideEffect(Merge(now), l).view == Some(OutcomeView(o))
    ensures ProvideEffect(Merge(now), l).note.prov == NoProvision
  {
  }

  method MergeOne(cloud: Cloud, st: ReconcileState, name: Name, o: Option<Instance>)
    requires Wired(cloud, st) && cloud.sys.g.stage == Stage.Provisioning
    requires At(cloud.sys, name).note.prov == ProvOf(Done(o)) && name !in st.runners
    modifies st.repr, cloud
    ensures Wired(cloud, st) && cloud.sys.g == old(cloud.sys).g && Onward(cloud)
    ensures fresh(st.repr - old(st.repr))
    ensures st.desiredRunnerCount == old(st.desiredRunnerCount) && st.lastGitHubAudit == old(st.lastGitHubAudit)
    ensures st.Views() == old(st.Views())[name := OutcomeView(o)]
    ensures At(cloud.sys, name).note.prov == NoProvision
    ensures forall n :: n != name ==> At(cloud.sys, n).note == At(old(cloud.sys), n).note
  {
    hide Run, Init, ProvideEffect;
    assert At(cloud.sys, name).view == Lookup(st.Views(), name) == None;
    OutcomeJoins(At(cloud.sys, name), o, cloud.now);
    FileOutcome(cloud, st, name, o);
    cloud.Join(name);
    Recoupled(cloud, st, name, OutcomeView(o));
  }

  /** The first `k` outcomes are merged and the rest still wait; nothing else is pending. */
  ghost predicate Merging(s: Sys, vs: map<Name, View>, ws: map<Name, View>, names: seq<Name>,
                          outcomes: seq<Option<Instance>>, k: nat)
  {
    && k <= |names| == |outcomes| && MergedSoFar(vs, ws, names, outcomes, k)
    && (forall i, j :: 0 <= i < j < |names| ==> names[i] != names[j])
    && (forall i :: k <= i < |names| ==>
          At(s, names[i]).note.prov == ProvOf(Done(outcomes[i])) && names[i] !in vs && names[i] !in ws)
    && (forall n :: n !in names[k..] ==> At(s, n).note.prov == NoProvision)
  }

  lemma MergingStep(s: Sys, r: Sys, vs: map<Name, View>, mid: map<Name, View>, ws: map<Name, View>, names: seq<Name>,
                    outcomes: seq<Option<Instance>>, k: nat)
    requires Merging(s, vs, mid, names, outcomes, k) && k < |names|
    requires ws == mid[names[k] := OutcomeView(outcomes[k])]
    requires At(r, names[k]).note.prov == NoProvision
    requires forall n :: n != names[k] ==> At(r, n).note == At(s, n).note
    ensures Merging(r, vs, ws, names, outcomes, k + 1)
  {
    hide OutcomeView;
    MergeStep(vs, mid, ws, names, outcomes, k);
    assert names[k..] == [names[k]] + names[k + 1..];
  }

  lemma MergingShape(s: Sys, vs: map<Name, View>, ws: map<Name, View>, names: seq<Name>,
                     outcomes: seq<Option<Instance>>, k: nat)
    requires Merging(s, vs, ws, names, outcomes, k)
    ensures k <= |names| == |outcomes|
  {
  }

  lemma MergingAt(s: Sys, vs: map<Name, View>, ws: map<Name, View>, names: seq<Name>,
                  outcomes: seq<Option<Instance>>, k: nat)
    requires Merging(s, vs, ws, names, outcomes, k) && k < |names|
    ensures |names| == |outcomes| && names[k] !in ws && At(s, names[k]).note.prov == ProvOf(Done(outcomes[k]))
  {
  }

  /** The names whose instance was created, in order. */
  function CreatedNames(names: seq<Name>, outcomes: seq<Option<Instance>>, k: nat): seq<Name>
    requires k <= |names| == |outcomes|
  {
    if k == 0 then [] else
    CreatedNames(names, outcomes, k - 1) + (if outcomes[k - 1].Some? then [names[k - 1]] else [])
  }

  method MergeOutcomes(cloud: Cloud, st: ReconcileState, names: seq<Name>, outcomes: seq<Option<Instance>>)
    returns (created: seq<Name>)
    requires Wired(cloud, st) && cloud.sys.g.stage == Stage.Provisioning
    requires Merging(cloud.sys, st.Views(), st.Views(), names, outcomes, 0)
    modifies st.repr, cloud
    ensures Wired(cloud, st) && cloud.sys.g.stage == Stage.Provisioning && Onward(cloud)
    ensures fresh(st.repr - old(st.repr))
    ensures st.desiredRunnerCount == old(st.desiredRunnerCount) && st.lastGitHubAudit == old(st.lastGitHubAudit)
    ensures Merging(cloud.sys, old(st.Views()), st.Views(), names, outcomes, |names|)
    ensures created == CreatedNames(names, outcomes, |names|)
  {
    hide Run, Init, Wired, Grew, Merging, OutcomeView;
    Unwire(cloud, st);
    GrewNone(cloud.acts);
    created := [];
    ghost var vs := st.Views();
    MergingShape(cloud.sys, vs, vs, names, outcomes, 0);
    var k := 0;
    while k < |names|
      invariant k <= |names| == |outcomes|
      invariant Wired(cloud, st) && cloud.sys.g.stage == Stage.Provisioning && Onward(cloud)
      invariant st.Valid() && fresh(st.repr - old(st.repr))
      invariant st.desiredRunnerCount == old(st.desiredRunnerCount) && st.lastGitHubAudit == old(st.lastGitHubAudit)
      invariant Merging(cloud.sys, vs, st.Views(), names, outcomes, k)
      invariant created == CreatedNames(names, outcomes, k)
    {
      ghost var s, mid, acts := cloud.sys, st.Views(), cloud.acts;
      MergingAt(s, vs, mid, names, outcomes, k);
      MergeOne(cloud, st, names[k], outcomes[k]);
      GrewOn(old(cloud.acts), acts, cloud.acts);
      Unwire(cloud, st);
      MergingStep(s, cloud.sys, vs, mid, st.Views(), names, outcomes, k);
      if outcomes[k].Some? {
        created := created + [names[k]];
      }
      k := k + 1;
    }
  }

  // ----- Provisioning several runners -----

  lemma NothingPending(cloud: Cloud)
    requires cloud.Valid() && cloud.sys.g.stage != Stage.Provisioning
    ensures forall n :: At(cloud.sys, n).note.prov == NoProvision
  {
    hide Run, Init;
    cloud.Invariant();
    forall n ensures At(cloud.sys, n).note.prov == NoProvision {
      assert LocalInv(cloud.cfg, cloud.sys.g, n, At(cloud.sys, n));
    }
  }

  lemma BackedViews(cloud: Cloud, st: ReconcileState)
    requires Wired(cloud, st)
    ensures Backed(cloud.sys) == BackedSet(st.Views())
  {
    hide Run, Init;
    forall n ensures n in Backed(cloud.sys) <==> n in BackedSet(st.Views()) {
      assert At(cloud.sys, n).view == Lookup(st.Views(), n);
    }
  }

  /** A name nobody used is not tracked. */
  lemma UnusedUntracked(cloud: Cloud, st: ReconcileState, n: Name)
    requires Wired(cloud, st) && Owned(cloud.cfg, n) && n !in cloud.cells
    ensures n !in st.runners
  {
    hide Run, Init;
    cloud.Invariant();
    assert LocalInv(cloud.cfg, cloud.sys.g, n, At(cloud.sys, n));
    assert At(cloud.sys, n).view == Lookup(st.Views(), n);
  }

  lemma {:induction false} DistinctCount(names: seq<Name>)
    requires forall i, j :: 0 <= i < j < |names| ==> names[i] != names[j]
    ensures |set n | n in names| == |names|
  {
    if |names| > 0 {
      var k := |names| - 1;
      DistinctCount(names[..k]);
      assert (set n | n in names) == (set n | n in names[..k]) + {names[k]};
    }
  }

  /** Every outcome is in, and nothing has been merged. */
  lemma StartMerging(s: Sys, vs: map<Name, View>, names: seq<Name>, outcomes: seq<Option<Instance>>)
    requires |names| == |outcomes|
    requires forall i, j :: 0 <= i < j < |names| ==> names[i] != names[j]
    requires forall i :: 0 <= i < |names| ==> At(s, names[i]).note.prov == ProvOf(Done(outcomes[i])) && names[i] !in vs
    requires forall n :: n !in names ==> At(s, n).note.prov == NoProvision
    ensures Merging(s, vs, vs, names, outcomes, 0)
  {
    assert names[0..] == names;
  }

  lemma QueuedEach(cfg: Config, names: set<Name>, n: Name, l: Local)
    requires l.note.prov == NoProvision
    ensures var m := CycleEffect(Owned(cfg, n), StartProvision(names), n, l);
            m.view == l.view && m.note.prov == if n in names then Queued else NoProvision
  {
  }

  /** Records and run still agree when no view has changed. */
  twostate lemma StillWired(new cloud: Cloud, new st: ReconcileState)
    requires old(allocated(cloud) && allocated(st)) && old(Wired(cloud, st)) && old(st.repr) == st.repr
    requires unchanged(st.repr) && cloud.Valid()
    requires forall n :: At(cloud.sys, n).view == At(old(cloud.sys), n).view
    ensures Wired(cloud, st)
  {
    hide Run, Init;
  }

  method DrawNames(cloud: Cloud, st: ReconcileState, count: nat) returns (names: seq<Name>)
    requires Wired(cloud, st)
    ensures |names| == count && forall i, j :: 0 <= i < j < |names| ==> names[i] != names[j]
    ensures forall n :: n in names ==> Owned(cloud.cfg, n) && n !in cloud.cells
    ensures forall i :: 0 <= i < |names| ==> names[i] !in st.runners && Owned(cloud.cfg, names[i])
  {
    hide Run, Init, Wired;
    Unwire(cloud, st);
    names := cloud.NewRunnerNames(count);
    forall i | 0 <= i < |names| ensures names[i] !in st.runners && Owned(cloud.cfg, names[i]) {
      assert names[i] in names;
      UnusedUntracked(cloud, st, names[i]);
    }
  }

  /** Sets aside `count` new names. */
  method ReserveNames(cloud: Cloud, st: ReconcileState, count: nat) returns (names: seq<Name>)
    requires Wired(cloud, st) && cloud.sys.g.stage == Scale
    requires |BackedSet(st.Views())| + count <= cloud.cfg.maxRunners
    modifies cloud
    ensures Wired(cloud, st) && cloud.sys.g.stage == Stage.Provisioning && Onward(cloud)
    ensures |names| == count && forall i, j :: 0 <= i < j < |names| ==> names[i] != names[j]
    ensures forall i :: 0 <= i < |names| ==> names[i] !in st.runners && Owned(cloud.cfg, names[i])
    ensures forall n :: At(cloud.sys, n).note.prov == if n in names then Queued else NoProvision
  {
    hide Run, Init, Wired, CycleEffect, Owned;
    Unwire(cloud, st);
    names := DrawNames(cloud, st, count);
    ghost var s, all := cloud.sys, set n | n in names;
    DistinctCount(names);
    NothingPending(cloud);
    BackedViews(cloud, st);
    cloud.Reserve(set n | n in names);
    forall n ensures At(cloud.sys, n).view == At(s, n).view &&
                     At(cloud.sys, n).note.prov == if n in all then Queued else NoProvision {
      QueuedEach(cloud.cfg, all, n, At(s, n));
    }
    StillWired(cloud, st);
  }

  /** What provisioning makes of the records, and of each attempted name. */
  ghost predicate ProvisionedAs(cfg: Config, vs: map<Name, View>, ws: map<Name, View>, names: seq<Name>,
                              outcomes: seq<Option<Instance>>, created: seq<Name>)
  {
    && |names| == |outcomes| && created == CreatedNames(names, outcomes, |names|)
    && (forall i, j :: 0 <= i < j < |names| ==> names[i] != names[j])
    && (forall i :: 0 <= i < |names| ==> names[i] !in vs && Owned(cfg, names[i]))
    && MergedSoFar(vs, ws, names, outcomes, |names|)
  }

  lemma AllProvisioned(cfg: Config, s: Sys, vs: map<Name, View>, ws: map<Name, View>, names: seq<Name>,
                       outcomes: seq<Option<Instance>>, created: seq<Name>)
    requires |names| == |outcomes| && Merging(s, vs, ws, names, outcomes, |names|)
    requires created == CreatedNames(names, outcomes, |names|)
    requires forall i :: 0 <= i < |names| ==> names[i] !in vs && Owned(cfg, names[i])
    ensures ProvisionedAs(cfg, vs, ws, names, outcomes, created)
    ensures forall n :: At(s, n).note.prov == NoProvision
  {
    assert names[|names|..] == [];
  }

  /** Provisions `count` runners at once. */
  method ProvisionRunners(cloud: Cloud, st: ReconcileState, count: nat)
    returns (created: seq<Name>, ghost names: seq<Name>, ghost outcomes: seq<Option<Instance>>)
    requires Wired(cloud, st) && cloud.sys.g.stage == Scale
    requires |BackedSet(st.Views())| + count <= cloud.cfg.maxRunners
    modifies st.repr, cloud
    ensures Wired(cloud, st) && cloud.sys.g.stage == Stage.Provisioning && Onward(cloud)
    ensures fresh(st.repr - old(st.repr))
    ensures st.desiredRunnerCount == old(st.desiredRunnerCount) && st.lastGitHubAudit == old(st.lastGitHubAudit)
    ensures |names| == count && ProvisionedAs(cloud.cfg, old(st.Views()), st.Views(), names, outcomes, created)
    ensures forall n :: At(cloud.sys, n).note.prov == NoProvision
    ensures old(cloud.trouble) + count - |created| <= cloud.trouble
  {
    hide Run, Init, Wired, Grew, Merging, ProvisionedAs;
    Unwire(cloud, st);
    ghost var vs := st.Views();
    var drawn := ReserveNames(cloud, st, count);
    ghost var acts := cloud.acts;
    Unwire(cloud, st);
    var results := WorkersDone(cloud, st, drawn);
    GrewOn(old(cloud.acts), acts, cloud.acts);
    acts := cloud.acts;
    Unwire(cloud, st);
    MergingShape(cloud.sys, vs, vs, drawn, results, 0);
    created := MergeOutcomes(cloud, st, drawn, results);
    GrewOn(old(cloud.acts), acts, cloud.acts);
    Unwire(cloud, st);
    names, outcomes := drawn, results;
    AllProvisioned(cloud.cfg, cloud.sys, vs, st.Views(), names, outcomes, created);
    CreatedWhich(names, outcomes, |names|);
    assert outcomes[..|names|] == outcomes;
  }

  method WorkersDone(cloud: Cloud, st: ReconcileState, names: seq<Name>) returns (outcomes: seq<Option<Instance>>)
    requires Wired(cloud, st) && cloud.sys.g.stage == Stage.Provisioning
    requires forall i, j :: 0 <= i < j < |names| ==> names[i] != names[j]
    requires forall i :: 0 <= i < |names| ==> names[i] !in st.runners
    requires forall n :: At(cloud.sys, n).note.prov == if n in names then Queued else NoProvision
    modifies cloud
    ensures Wired(cloud, st) && cloud.sys.g.stage == Stage.Provisioning && Onward(cloud)
    ensures Merging(cloud.sys, st.Views(), st.Views(), names, outcomes, 0)
    ensures old(cloud.trouble) + Failed(outcomes) <= cloud.trouble
  {
    hide Run, Init, Merging;
    ghost var history, moments;
    outcomes, history, moments := RunWorkers(cloud, names);
    StartMerging(cloud.sys, st.Views(), names, outcomes);
  }

  // ----- What provisioning comes to -----

  lemma {:induction false} CreatedWhich(names: seq<Name>, outcomes: seq<Option<Instance>>, k: nat)
    requires k <= |names| == |outcomes|
    ensures forall n :: n in CreatedNames(names, outcomes, k) <==>
                        (exists i :: 0 <= i < k && names[i] == n && outcomes[i].Some?)
    ensures |CreatedNames(names, outcomes, k)| == k - Failed(outcomes[..k]) <= k
    ensures |CreatedNames(names, outcomes, k)| == k <==> forall i :: 0 <= i < k ==> outcomes[i].Some?
  {
    if k > 0 {
      CreatedWhich(names, outcomes, k - 1);
      assert outcomes[..k][..k - 1] == outcomes[..k - 1];
    }
  }

  lemma {:induction false} CreatedDistinct(names: seq<Name>, outcomes: seq<Option<Instance>>, k: nat)
    requires k <= |names| == |outcomes| && forall i, j :: 0 <= i < j < |names| ==> names[i] != names[j]
    ensures var cs := CreatedNames(names, outcomes, k); forall i, j :: 0 <= i < j < |cs| ==> cs[i] != cs[j]
  {
    if k > 0 {
      CreatedDistinct(names, outcomes, k - 1);
      CreatedWhich(names, outcomes, k - 1);
      var before := CreatedNames(names, outcomes, k - 1);
      forall i | 0 <= i < |before| ensures before[i] != names[k - 1] {
        assert before[i] in before;
      }
    }
  }

  /** Every attempted name ends either created, with its instance and no teardown, or
      under a permanent teardown without an instance: never both, never neither. */
  lemma EitherCreatedOrCondemned(cfg: Config, vs: map<Name, View>, ws: map<Name, View>, names: seq<Name>,
                                 outcomes: seq<Option<Instance>>, created: seq<Name>, n: Name)
    requires ProvisionedAs(cfg, vs, ws, names, outcomes, created) && n in names
    ensures n in ws && n !in vs
    ensures n in created <==> ws[n].instance.Some? && ws[n].teardown.None?
    ensures n !in created <==> ws[n].instance.None? && HasTeardown(Some(ws[n]), Permanent)
  {
    CreatedWhich(names, outcomes, |names|);
    var i :| 0 <= i < |names| && names[i] == n;
    assert ws[names[i]] == OutcomeView(outcomes[i]);
  }

  /** The merged records depend on the outcomes alone: any two ways of running the
      workers that end in the same outcomes end in the same records. */
  lemma OutcomesDecide(cfg: Config, vs: map<Name, View>, ws: map<Name, View>, ws': map<Name, View>, names: seq<Name>,
                       outcomes: seq<Option<Instance>>, created: seq<Name>, created': seq<Name>)
    requires ProvisionedAs(cfg, vs, ws, names, outcomes, created)
    requires ProvisionedAs(cfg, vs, ws', names, outcomes, created')
    ensures ws == ws' && created == created'
  {
    assert names[..|names|] == names;
    forall n ensures Lookup(ws, n) == Lookup(ws', n) {
      if n in names {
        var i :| 0 <= i < |names| && names[i] == n;
      } else {
        assert n !in names[..|names|];
      }
    }
    SameLookup(ws, ws');
  }

  lemma SameLookup<T>(a: map<Name, T>, b: map<Name, T>)
    requires forall n :: Lookup(a, n) == Lookup(b, n)
    ensures a == b
  {
    forall n ensures n in a <==> n in b {
      assert Lookup(a, n) == Lookup(b, n);
    }
    forall n | n in a ensures a[n] == b[n] {
      assert Lookup(a, n) == Lookup(b, n);
    }
  }

  // ----- Scaling up -----

  /** What the queries asked come to: the project first, the silo only when it has none. */
  predicate Resolves(asked: seq<(bool, ImageReply)>, size: Option<nat>) {
    if |asked| == 1 then asked[0].0 && asked[0].1 != ImageNotFound && size == SizeOf(asked[0].1)
    else |asked| == 2 && asked[0] == (true, ImageNotFound) && !asked[1].0 && size == SizeOf(asked[1].1)
  }

  function SizeOf(r: ImageReply): Option<nat> {
    if r.Image? then Some(r.size) else None
  }

  /** The image of the project, or that of the silo when the project has none. */
  method FetchImage(cloud: Cloud, st: ReconcileState) returns (size: Option<nat>)
    requires Wired(cloud, st)
    modifies cloud
    ensures Wired(cloud, st) && cloud.sys.g.stage == old(cloud.sys).g.stage && Onward(cloud)
    ensures old(cloud.images) <= cloud.images && Resolves(cloud.images[|old(cloud.images)|..], size)
    ensures size.None? ==> old(cloud.trouble) < cloud.trouble
  {
    hide Run, Init;
    ghost var before := cloud.images;
    var reply := cloud.ImageView(true);
    assert cloud.images[|before|..] == [(true, reply)];
    if reply == ImageNotFound {
      reply := cloud.ImageView(false);
      assert cloud.images[|before|..] == [(true, ImageNotFound), (false, reply)];
    }
    size := SizeOf(reply);
  }

  /** How many runners scale-up asks for: the gap, or the free capacity. */
  function Wanted(cfg: Config, backed: nat, gap: int): int {
    Min(gap, Max(cfg.maxRunners - backed, 0))
  }

  lemma GrownBy<T>(a: set<T>, b: set<T>, c: set<T>)
    requires a !! b && forall x :: x in c <==> x in a + b
    ensures |c| == |a| + |b|
  {
    assert c == a + b;
  }

  lemma CreatedCount(cfg: Config, vs: map<Name, View>, ws: map<Name, View>, names: seq<Name>,
                     outcomes: seq<Option<Instance>>, created: seq<Name>)
    requires ProvisionedAs(cfg, vs, ws, names, outcomes, created)
    ensures |set n | n in created| == |created| <= |names|
  {
    CreatedWhich(names, outcomes, |names|);
    CreatedDistinct(names, outcomes, |names|);
    DistinctCount(created);
  }

  lemma GrownView(cfg: Config, vs: map<Name, View>, ws: map<Name, View>, names: seq<Name>,
                  outcomes: seq<Option<Instance>>, created: seq<Name>, n: Name)
    requires ProvisionedAs(cfg, vs, ws, names, outcomes, created)
    ensures n !in names ==> Lookup(ws, n) == Lookup(vs, n) && n !in created
    ensures n in names ==> n in ws && n !in vs && (n in created <==> ws[n].instance.Some?)
    ensures n in names && n !in created ==> ws[n].teardown.Some?
  {
    CreatedWhich(names, outcomes, |names|);
    assert names[..|names|] == names;
    if n in names {
      EitherCreatedOrCondemned(cfg, vs, ws, names, outcomes, created, n);
      var i :| 0 <= i < |names| && names[i] == n;
      assert ws[names[i]] == OutcomeView(outcomes[i]);
    }
  }

  /** Each created runner adds one to those that hold an instance. */
  lemma CreatedBacked(cfg: Config, vs: map<Name, View>, ws: map<Name, View>, names: seq<Name>,
                      outcomes: seq<Option<Instance>>, created: seq<Name>)
    requires ProvisionedAs(cfg, vs, ws, names, outcomes, created)
    ensures |BackedSet(ws)| == |BackedSet(vs)| + |created| && |created| <= |names|
  {
    hide ProvisionedAs;
    var all := set n | n in created;
    CreatedCount(cfg, vs, ws, names, outcomes, created);
    forall n ensures (n in BackedSet(ws) <==> n in BackedSet(vs) + all) && (n in all ==> n !in vs) {
      GrownView(cfg, vs, ws, names, outcomes, created, n);
    }
    GrownBy(BackedSet(vs), all, BackedSet(ws));
  }

  lemma NoneProvisioned(cfg: Config, vs: map<Name, View>)
    ensures ProvisionedAs(cfg, vs, vs, [], [], [])
  {
  }

  method RetryLater(cloud: Cloud, st: ReconcileState) returns (t: Option<Time>)
    requires Wired(cloud, st)
    modifies cloud
    ensures Wired(cloud, st) && EnvOnly(old(cloud.sys), cloud.sys) && Onward(cloud)
    ensures t == Some(cloud.now + RECONCILE_RETRY_DELAY) && cloud.images == old(cloud.images)
  {
    hide Run, Init;
    t := NextReconcileAfter(cloud, RECONCILE_RETRY_DELAY);
  }

  /** Raises the active count towards the target within the free capacity. A retry is asked
      for, fifteen seconds on, exactly when the gap was not closed and the limit not reached. */
  method ScaleUp(cloud: Cloud, st: ReconcileState, active: int, target: int)
    returns (retry: Option<Time>, ghost created: seq<Name>, ghost names: seq<Name>,
            ghost outcomes: seq<Option<Instance>>)
    requires Wired(cloud, st) && cloud.sys.g.stage == Scale && active < target
    modifies st.repr, cloud
    ensures Wired(cloud, st) && cloud.sys.g.stage in {Scale, Stage.Provisioning} && Onward(cloud)
    ensures fresh(st.repr - old(st.repr))
    ensures st.desiredRunnerCount == old(st.desiredRunnerCount) && st.lastGitHubAudit == old(st.lastGitHubAudit)
    ensures ProvisionedAs(cloud.cfg, old(st.Views()), st.Views(), names, outcomes, created)
    ensures names == [] || |names| == Wanted(cloud.cfg, |BackedSet(old(st.Views()))|, target - active)
    ensures retry.None? <==> |created| == target - active || |BackedSet(st.Views())| >= cloud.cfg.maxRunners
    ensures retry.None? ==> |created| == |names|
    ensures retry.Some? ==> retry.value == cloud.now + 15 * SECOND && old(cloud.trouble) < cloud.trouble
    ensures retry.Some? && names == [] ==>
              old(cloud.images) <= cloud.images && Resolves(cloud.images[|old(cloud.images)|..], None)
    ensures old(cloud.trouble) + |names| - |created| <= cloud.trouble
    ensures forall n :: At(cloud.sys, n).note.prov == NoProvision
  {
    hide Run, Init, Wired, Grew, ProvisionedAs, Resolves, BackedSet;
    Unwire(cloud, st);
    NoneProvisioned(cloud.cfg, st.Views());
    GrewNone(cloud.acts);
    NothingPending(cloud);
    retry, created, names, outcomes := None, [], [], [];
    var count := st.InstanceCount();
    var requested := Wanted(cloud.cfg, count, target - active);
    if requested <= 0 {
      return;
    }
    ghost var vs := st.Views();
    var size := FetchImage(cloud, st);
    ghost var acts := cloud.acts;
    Unwire(cloud, st);
    if size.None? {
      NothingPending(cloud);
      retry := RetryLater(cloud, st);
      GrewOn(old(cloud.acts), acts, cloud.acts);
      return;
    }
    var made;
    made, names, outcomes := ProvisionRunners(cloud, st, requested);
    created := made;
    GrewOn(old(cloud.acts), acts, cloud.acts);
    acts := cloud.acts;
    Unwire(cloud, st);
    CreatedBacked(cloud.cfg, vs, st.Views(), names, outcomes, created);
    if |made| < requested {
      retry := RetryLater(cloud, st);
      GrewOn(old(cloud.acts), acts, cloud.acts);
    }
  }
}
