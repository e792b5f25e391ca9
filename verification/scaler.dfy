/** The controller object: what the listener tells it, and the inbox it keeps. */
module Scalers {
  import opened Types
  import opened Protocol
  import opened System
  import opened Clouds
  import opened Runners
  import opened Teardowns
  import opened Marking

  datatype JobStatus = Started | Completed | OtherStatus
  datatype JobEvent = JobEvent(runnerName: Name, jobStatus: JobStatus)

  class Scaler {
    const cloud: Cloud
    var desiredRunnerCount: int
    var jobEvents: seq<JobEvent>
    var activeRunnerCount: int
    /** The one token the wake channel can hold. */
    var woken: bool

    constructor (cloud: Cloud)
      ensures this.cloud == cloud && desiredRunnerCount == -1 && jobEvents == []
      ensures activeRunnerCount == 0 && !woken
    {
      this.cloud := cloud;
      desiredRunnerCount, jobEvents, activeRunnerCount, woken := -1, [], 0, false;
    }

    /** Leaves a token, or finds one there already. */
    method Wake()
      modifies this`woken
      ensures woken
    {
      if !woken {
        woken := true;
      }
    }

    method HandleDesiredRunnerCount(count: int) returns (active: int)
      modifies this`desiredRunnerCount, this`woken
      ensures desiredRunnerCount == count && woken && active == activeRunnerCount
    {
      desiredRunnerCount := count;
      Wake();
      active := activeRunnerCount;
    }

    method EnqueueJobEvent(event: JobEvent)
      modifies this`jobEvents, this`woken
      ensures jobEvents == old(jobEvents) + [event] && woken
    {
      jobEvents := jobEvents + [event];
      Wake();
    }

    /** A message without a runner name is dropped, and wakes nobody. */
    method HandleJobStarted(runnerName: Name)
      modifies this`jobEvents, this`woken
      ensures if runnerName == "" then jobEvents == old(jobEvents) && woken == old(woken)
              else jobEvents == old(jobEvents) + [JobEvent(runnerName, Started)] && woken
    {
      if runnerName == "" {
        return;
      }
      EnqueueJobEvent(JobEvent(runnerName, Started));
    }

    method HandleJobCompleted(runnerName: Name)
      modifies this`jobEvents, this`woken
      ensures if runnerName == "" then jobEvents == old(jobEvents) && woken == old(woken)
              else jobEvents == old(jobEvents) + [JobEvent(runnerName, Completed)] && woken
    {
      if runnerName == "" {
        return;
      }
      EnqueueJobEvent(JobEvent(runnerName, Completed));
    }
  }

  // ----- Job events -----

  function EventView(v: View, s: JobStatus): View {
    match s
    case Started => JobStartedOn(v)
    case Completed => Doomed(v)
    case OtherStatus => v
  }

  function ApplyEvent(vs: map<Name, View>, e: JobEvent): map<Name, View> {
    if e.jobStatus == OtherStatus then vs
    else vs[e.runnerName := EventView(OrEmpty(Lookup(vs, e.runnerName)), e.jobStatus)]
  }

  /** The views after the events, first to last. */
  function ApplyEvents(vs: map<Name, View>, es: seq<JobEvent>): map<Name, View> {
    if |es| == 0 then vs else ApplyEvent(ApplyEvents(vs, es[..|es| - 1]), es[|es| - 1])
  }

  /** The events of one name, in order. */
  function EventsOf(es: seq<JobEvent>, n: Name): seq<JobStatus> {
    if |es| == 0 then []
    else
      var k := |es| - 1;
      EventsOf(es[..k], n) + (if es[k].runnerName == n && es[k].jobStatus != OtherStatus then [es[k].jobStatus] else [])
  }

  function EventsView(v: View, ss: seq<JobStatus>): View {
    if |ss| == 0 then v else EventView(EventsView(v, ss[..|ss| - 1]), ss[|ss| - 1])
  }

  lemma ViewAfterOne(vs: map<Name, View>, e: JobEvent, n: Name)
    ensures OrEmpty(Lookup(ApplyEvent(vs, e), n)) ==
            if e.runnerName == n then EventView(OrEmpty(Lookup(vs, n)), e.jobStatus) else OrEmpty(Lookup(vs, n))
    ensures n in ApplyEvent(vs, e) <==> n in vs || (e.runnerName == n && e.jobStatus != OtherStatus)
  {
  }

  /** What becomes of a runner depends on its own events only, in their order. */
  lemma {:induction false} OwnEventsOnly(vs: map<Name, View>, es: seq<JobEvent>, n: Name)
    ensures OrEmpty(Lookup(ApplyEvents(vs, es), n)) == EventsView(OrEmpty(Lookup(vs, n)), EventsOf(es, n))
    ensures n in ApplyEvents(vs, es) <==> n in vs || EventsOf(es, n) != []
  {
    if |es| > 0 {
      hide ApplyEvent, EventView, Lookup, OrEmpty;
      var k := |es| - 1;
      var own := EventsOf(es[..k], n);
      OwnEventsOnly(vs, es[..k], n);
      ViewAfterOne(ApplyEvents(vs, es[..k]), es[k], n);
      if es[k].runnerName == n && es[k].jobStatus != OtherStatus {
        assert EventsOf(es, n) == own + [es[k].jobStatus];
        assert (own + [es[k].jobStatus])[..|own|] == own;
      } else {
        assert EventsOf(es, n) == own;
        Ignored(EventsView(OrEmpty(Lookup(vs, n)), own));
      }
    }
  }

  lemma Ignored(v: View)
    ensures EventView(v, OtherStatus) == v
  {
  }

  /** A completed job condemns its runner whatever else was heard, and a started one
      leaves it busy and in no cancelable removal. */
  lemma {:induction false} EventsStick(v: View, ss: seq<JobStatus>)
    ensures Completed in ss || HasTeardown(Some(v), Permanent) ==> HasTeardown(Some(EventsView(v, ss)), Permanent)
    ensures Started in ss || v.busy <==> EventsView(v, ss).busy
    ensures Started in ss ==> !CanCancelForJob(EventsView(v, ss).teardown)
  {
    if |ss| > 0 {
      var k := |ss| - 1;
      EventsStick(v, ss[..k]);
      assert ss == ss[..k] + [ss[k]];
    }
  }

  /** A job has started: whatever may still be cancelled is. */
  method Occupy(st: ReconcileState, r: Runner)
    requires st.Valid() && Tracks(st, r)
    modifies r`busy, r`teardown
    ensures st.Valid() && st.Views() == old(st.Views())[r.name := JobStartedOn(old(r.Val()))]
  {
    assert st.Filed(r.name);
    r.busy := true;
    if r.teardown != null && r.teardown.policy == Cancelable && r.teardown.phase != Deprovisioning {
      r.teardown := null;
    }
    OthersSame(st, r);
  }

  /** A job has started on the runner of that name. */
  method StartJob(st: ReconcileState, name: Name)
    requires st.Valid()
    modifies st.repr
    ensures st.Valid() && fresh(st.repr - old(st.repr))
    ensures st.desiredRunnerCount == old(st.desiredRunnerCount) && st.lastGitHubAudit == old(st.lastGitHubAudit)
    ensures st.Views() == old(st.Views())[name := JobStartedOn(OrEmpty(Lookup(old(st.Views()), name)))]
  {
    hide JobStartedOn, OrEmpty, Lookup;
    var r := Find(st, name);
    Occupy(st, r);
  }

  method TakeEvent(cloud: Cloud, st: ReconcileState, e: JobEvent)
    requires Wired(cloud, st) && cloud.sys.g.stage == Idle
    modifies st.repr, cloud
    ensures Wired(cloud, st) && cloud.sys.g == old(cloud.sys).g && GrewPassively(old(cloud.acts), cloud.acts)
    ensures old(cloud.trouble) <= cloud.trouble
    ensures fresh(st.repr - old(st.repr))
    ensures st.desiredRunnerCount == old(st.desiredRunnerCount) && st.lastGitHubAudit == old(st.lastGitHubAudit)
    ensures st.Views() == ApplyEvent(old(st.Views()), e)
  {
    hide Run, Init, JobStartedOn, Marked, OrEmpty, Lookup;
    if e.jobStatus == OtherStatus {
      return;
    }
    SeenOrNot(cloud, st, e.runnerName);
    if e.jobStatus == Started {
      StartJob(st, e.runnerName);
    } else {
      CondemnByName(cloud, st, e.runnerName);
    }
    cloud.Hear(e.runnerName, if e.jobStatus == Started then JobStarted else JobCompleted(cloud.now));
    DoomedAnytime(OrEmpty(At(old(cloud.sys), e.runnerName).view), cloud.now);
    Recoupled(cloud, st, e.runnerName, st.Views()[e.runnerName]);
  }

  /** Applies the first `k` events, in order. */
  ghost predicate Processed(vs: map<Name, View>, ws: map<Name, View>, es: seq<JobEvent>, k: nat)
    requires k <= |es|
  {
    ws == ApplyEvents(vs, es[..k])
  }

  lemma ProcessOne(vs: map<Name, View>, mid: map<Name, View>, ws: map<Name, View>, es: seq<JobEvent>, k: nat)
    requires k < |es| && Processed(vs, mid, es, k) && ws == ApplyEvent(mid, es[k])
    ensures Processed(vs, ws, es, k + 1)
  {
    assert es[..k + 1][..k] == es[..k];
  }

  /** Takes the demand and the whole inbox at once, then applies the events in order. */
  method ProcessJobEvents(s: Scaler, st: ReconcileState)
    requires Wired(s.cloud, st) && s.cloud.sys.g.stage == Idle && s !in st.repr
    modifies s`jobEvents, st.repr, s.cloud
    ensures Wired(s.cloud, st) && s.cloud.sys.g == old(s.cloud.sys).g
    ensures GrewPassively(old(s.cloud.acts), s.cloud.acts) && old(s.cloud.trouble) <= s.cloud.trouble
    ensures fresh(st.repr - old(st.repr)) && st.lastGitHubAudit == old(st.lastGitHubAudit)
    ensures s.jobEvents == [] && st.desiredRunnerCount == s.desiredRunnerCount
    ensures st.Views() == ApplyEvents(old(st.Views()), old(s.jobEvents))
  {
    hide Run, Init, Wired, GrewPassively, ApplyEvents;
    var cloud := s.cloud;
    Unwire(cloud, st);
    var events := TakeInbox(s, st);
    ghost var vs := st.Views();
    Unwire(cloud, st);
    PassiveNone(cloud.acts);
    ApplyNone(vs);
    assert events[..0] == [];
    for k := 0 to |events|
      invariant Wired(cloud, st) && cloud.sys.g == old(cloud.sys).g
      invariant GrewPassively(old(cloud.acts), cloud.acts) && old(cloud.trouble) <= cloud.trouble
      invariant st.Valid() && fresh(st.repr - old(st.repr)) && st.lastGitHubAudit == old(st.lastGitHubAudit)
      invariant s.jobEvents == [] && st.desiredRunnerCount == s.desiredRunnerCount == old(s.desiredRunnerCount)
      invariant Processed(vs, st.Views(), events, k)
    {
      ghost var mid, acts := st.Views(), cloud.acts;
      TakeEvent(cloud, st, events[k]);
      PassiveOn(old(cloud.acts), acts, cloud.acts);
      Unwire(cloud, st);
      ProcessOne(vs, mid, st.Views(), events, k);
    }
    assert events[..|events|] == events;
  }

  lemma ApplyNone(vs: map<Name, View>)
    ensures ApplyEvents(vs, []) == vs
  {
  }

  method TakeInbox(s: Scaler, st: ReconcileState) returns (events: seq<JobEvent>)
    requires Wired(s.cloud, st) && s !in st.repr
    modifies s`jobEvents, st`desiredRunnerCount
    ensures Wired(s.cloud, st) && st.desiredRunnerCount == s.desiredRunnerCount
    ensures s.jobEvents == [] && events == old(s.jobEvents) && st.Views() == old(st.Views())
  {
    hide Run, Init;
    st.desiredRunnerCount := s.desiredRunnerCount;
    events := s.jobEvents;
    s.jobEvents := [];
    assert forall n :: n in st.runners ==> old(st.Filed(n)) && st.Filed(n);
  }
}
