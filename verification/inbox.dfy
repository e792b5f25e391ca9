/**
  Handlers and loop as concurrent parties around the inbox and its wake token: every
  interleaving of their atomic steps.
 */
module Inbox {
  import opened Types
  import opened Scalers

  /** Where the loop stands: waiting in its select, bound to take the inbox, applying
      what it took, busy with the rest of the cycle, or ended. */
  datatype Loop = Waiting | Bound | Applying(batch: seq<JobEvent>) | Working | Ended

  /** `waking` counts the handlers that have stored their message and not yet left the
      token; `used` is the demand of the cycle last begun. */
  datatype State = State(
    demand: int, events: seq<JobEvent>, token: bool, waking: nat,
    loop: Loop, used: int, applied: seq<JobEvent>)

  datatype Step =
    | StoreDemand(count: int)
    | StoreEvent(event: JobEvent)
    | LeaveToken
    | TakeToken
    | TimerFires
    | Snapshot
    | ApplyNext
    | EventsDone
    | CycleOver(observed: bool)
    | Drained
    | Cancel

  /** The loop starts with a first cycle, whatever was stored before it. */
  const START := State(-1, [], false, 0, Bound, -1, [])

  predicate May(s: State, a: Step) {
    match a
    case StoreDemand(_) => true
    case StoreEvent(_) => true
    case LeaveToken => s.waking > 0
    case TakeToken => s.loop == Waiting && s.token
    case TimerFires => s.loop == Waiting
    case Snapshot => s.loop == Bound
    case ApplyNext => s.loop.Applying? && s.loop.batch != []
    case EventsDone => s.loop == Applying([])
    case CycleOver(_) => s.loop == Working
    case Drained => s.loop == Working
    case Cancel => s.loop == Waiting || s.loop == Bound
  }

  function Next(s: State, a: Step): State
    requires May(s, a)
  {
    match a
    case StoreDemand(c) => s.(demand := c, waking := s.waking + 1)
    case StoreEvent(e) => s.(events := s.events + [e], waking := s.waking + 1)
    case LeaveToken => s.(token := true, waking := s.waking - 1)
    case TakeToken => s.(token := false, loop := Bound)
    case TimerFires => s.(loop := Bound)
    case Snapshot => s.(events := [], used := s.demand, loop := Applying(s.events))
    case ApplyNext => s.(applied := s.applied + [s.loop.batch[0]], loop := Applying(s.loop.batch[1..]))
    case EventsDone => s.(loop := Working)
    case CycleOver(_) => s.(loop := Waiting)
    case Drained => s.(loop := Ended)
    case Cancel => s.(loop := Ended)
  }

  /** The state after the steps, or None when one of them could not be taken. */
  function After(steps: seq<Step>): Option<State> {
    if |steps| == 0 then Some(START)
    else
      var k := |steps| - 1;
      match After(steps[..k])
      case None => None
      case Some(s) => if May(s, steps[k]) then Some(Next(s, steps[k])) else None
  }

  // ----- What a history of steps says, without the state -----

  /** Every event ever stored, in order. */
  function Stored(steps: seq<Step>): seq<JobEvent> {
    if |steps| == 0 then []
    else
      var k := |steps| - 1;
      Stored(steps[..k]) + (if steps[k].StoreEvent? then [steps[k].event] else [])
  }

  /** The demand last stored. */
  function LastDemand(steps: seq<Step>): int {
    if |steps| == 0 then -1
    else
      var k := |steps| - 1;
      if steps[k].StoreDemand? then steps[k].count else LastDemand(steps[..k])
  }

  /** The demand last stored before the latest snapshot. */
  function DemandAtSnapshot(steps: seq<Step>): int {
    if |steps| == 0 then -1
    else
      var k := |steps| - 1;
      if steps[k].Snapshot? then LastDemand(steps[..k]) else DemandAtSnapshot(steps[..k])
  }

  function InBatch(l: Loop): seq<JobEvent> {
    if l.Applying? then l.batch else []
  }

  function Held(s: State): seq<JobEvent> {
    s.applied + InBatch(s.loop) + s.events
  }

  lemma HeldStep(s: State, a: Step)
    requires May(s, a)
    ensures Held(Next(s, a)) == Held(s) + (if a.StoreEvent? then [a.event] else [])
  {
    if a.ApplyNext? {
      assert s.loop.batch == [s.loop.batch[0]] + s.loop.batch[1..];
    }
  }

  /** Exactly once and in order: what was applied, what is being applied and what waits
      make up what was stored; and the cycle's demand is the one its snapshot saw. */
  lemma {:induction false} ExactlyOnce(steps: seq<Step>)
    requires After(steps).Some?
    ensures Held(After(steps).value) == Stored(steps)
    ensures After(steps).value.demand == LastDemand(steps)
    ensures After(steps).value.used == DemandAtSnapshot(steps)
  {
    if |steps| > 0 {
      hide Held;
      var k := |steps| - 1;
      ExactlyOnce(steps[..k]);
      HeldStep(After(steps[..k]).value, steps[k]);
    } else {
      assert Held(START) == [];
    }
  }

  /** Something has been stored that no cycle has taken. */
  predicate Pending(s: State) {
    s.events != [] || s.demand != s.used
  }

  /** Someone is about to make the loop look. */
  predicate Roused(s: State) {
    s.token || s.waking > 0 || s.loop == Bound || s.loop == Ended
  }

  /** No wake-up is lost. */
  lemma {:induction false} NoLostWakeUp(steps: seq<Step>)
    requires After(steps).Some?
    ensures Pending(After(steps).value) ==> Roused(After(steps).value)
  {
    if |steps| > 0 {
      NoLostWakeUp(steps[..|steps| - 1]);
    }
  }

  /** The steps of the handlers' and the loop's own that lead to a snapshot: none needs a
      timer or another message. */
  function Rouse(s: State): seq<Step> {
    if s.loop != Waiting then []
    else if s.token then [TakeToken, Snapshot]
    else [LeaveToken, TakeToken, Snapshot]
  }

  lemma {:induction false} AfterMore(steps: seq<Step>, a: Step)
    requires After(steps).Some? && May(After(steps).value, a)
    ensures After(steps + [a]) == Some(Next(After(steps).value, a))
  {
    assert (steps + [a])[..|steps|] == steps;
  }

  /** From any wait with something pending, the parties themselves reach a snapshot that
      takes all of it, in at most three steps. */
  lemma PendingIsTaken(steps: seq<Step>)
    requires After(steps).Some? && After(steps).value.loop == Waiting && Pending(After(steps).value)
    ensures |Rouse(After(steps).value)| <= 3
    ensures var r := After(steps + Rouse(After(steps).value));
            r.Some? && r.value.loop == Applying(After(steps).value.events) && !Pending(r.value)
  {
    NoLostWakeUp(steps);
    var s := After(steps).value;
    var all := steps;
    if !s.token {
      AfterMore(all, LeaveToken);
      all := all + [LeaveToken];
    }
    AfterMore(all, TakeToken);
    all := all + [TakeToken];
    AfterMore(all, Snapshot);
    all := all + [Snapshot];
    assert all == steps + Rouse(s);
  }

  /** A loop at rest, with no token and no handler under way, has dealt with everything. */
  lemma AtRest(steps: seq<Step>)
    requires After(steps).Some?
    requires var s := After(steps).value; s.loop == Waiting && !s.token && s.waking == 0
    ensures After(steps).value.applied == Stored(steps)
    ensures DemandAtSnapshot(steps) == LastDemand(steps)
  {
    ExactlyOnce(steps);
    NoLostWakeUp(steps);
  }

  // ----- The steps of whole calls -----

  /** What a handler's whole call adds to the history. */
  lemma CallStored(steps: seq<Step>, store: Step)
    requires After(steps).Some? && (store.StoreDemand? || store.StoreEvent?)
    ensures After(steps + [store] + [LeaveToken]) ==
            Some(Next(After(steps).value, store).(token := true, waking := After(steps).value.waking))
  {
    AfterMore(steps, store);
    AfterMore(steps + [store], LeaveToken);
  }

  function Applications(count: nat): seq<Step> {
    seq(count, _ => ApplyNext)
  }

  lemma {:induction false} AppliesAll(steps: seq<Step>, count: nat)
    requires After(steps).Some? && After(steps).value.loop.Applying? && count <= |After(steps).value.loop.batch|
    ensures var s := After(steps).value;
            After(steps + Applications(count)) ==
            Some(s.(applied := s.applied + s.loop.batch[..count], loop := Applying(s.loop.batch[count..])))
  {
    var s := After(steps).value;
    if count == 0 {
      assert steps + Applications(0) == steps;
      assert s.applied + s.loop.batch[..0] == s.applied && s.loop.batch[0..] == s.loop.batch;
    } else {
      AppliesAll(steps, count - 1);
      AfterMore(steps + Applications(count - 1), ApplyNext);
      assert steps + Applications(count - 1) + [ApplyNext] == steps + Applications(count);
      assert s.loop.batch[..count] == s.loop.batch[..count - 1] + [s.loop.batch[count - 1]];
      assert s.loop.batch[count - 1..][1..] == s.loop.batch[count..];
      assert s.loop.batch[count - 1..][0] == s.loop.batch[count - 1];
      assert s.applied + s.loop.batch[..count - 1] + [s.loop.batch[count - 1]] == s.applied + s.loop.batch[..count];
    }
  }

  /** The steps of one cycle that finds `count` events in the inbox. */
  function CycleSteps(count: nat, over: Step): seq<Step> {
    [Snapshot] + Applications(count) + [EventsDone] + [over]
  }

  /** A whole cycle takes the demand and applies everything that was in the inbox. */
  lemma CycleTakesAll(steps: seq<Step>, over: Step)
    requires After(steps).Some? && After(steps).value.loop == Bound && (over.CycleOver? || over.Drained?)
    ensures var s := After(steps).value;
            After(steps + CycleSteps(|s.events|, over)) ==
            Some(s.(events := [], used := s.demand, applied := s.applied + s.events,
                    loop := if over.Drained? then Ended else Waiting))
  {
    hide After, Applications;
    var s := After(steps).value;
    var n := |s.events|;
    AfterMore(steps, Snapshot);
    var a := steps + [Snapshot];
    AppliesAll(a, n);
    assert s.events[..n] == s.events && s.events[n..] == [];
    var b := a + Applications(n);
    AfterMore(b, EventsDone);
    AfterMore(b + [EventsDone], over);
    assert b + [EventsDone] + [over] == steps + CycleSteps(n, over);
  }

  // ----- The object follows the protocol -----

  /** The scaler's fields are what the history of steps says, with no handler under way. */
  ghost predicate Mirrors(s: Scaler, steps: seq<Step>)
    reads s
  {
    && After(steps).Some?
    && var i := After(steps).value;
       i.demand == s.desiredRunnerCount && i.events == s.jobEvents && i.token == s.woken && i.waking == 0
  }

  /** Each handler takes the steps of the protocol: it stores, then leaves the token. */
  method Demand(s: Scaler, count: int, ghost steps: seq<Step>) returns (active: int, ghost more: seq<Step>)
    requires Mirrors(s, steps)
    modifies s`desiredRunnerCount, s`woken
    ensures Mirrors(s, more) && more == steps + [StoreDemand(count)] + [LeaveToken]
  {
    CallStored(steps, StoreDemand(count));
    more := steps + [StoreDemand(count)] + [LeaveToken];
    active := s.HandleDesiredRunnerCount(count);
  }

  /** A message without a runner name takes no step. */
  method Job(s: Scaler, e: JobEvent, ghost steps: seq<Step>) returns (ghost more: seq<Step>)
    requires Mirrors(s, steps) && e.jobStatus != OtherStatus
    modifies s`jobEvents, s`woken
    ensures Mirrors(s, more)
    ensures more == if e.runnerName == "" then steps else steps + [StoreEvent(e)] + [LeaveToken]
  {
    CallStored(steps, StoreEvent(e));
    more := if e.runnerName == "" then steps else steps + [StoreEvent(e)] + [LeaveToken];
    if e.jobStatus == Started {
      s.HandleJobStarted(e.runnerName);
    } else {
      s.HandleJobCompleted(e.runnerName);
    }
  }
}
