/**
  Running listener and scaler as peers and cleaning up after them, in every interleaving
  of process cancellation, the two exits and the caller's own steps.
 */
module Shutdown {
  import opened Types

  datatype Err = Ok | Canceled | ScaleSetDrained | Failure(code: int)

  /** Where the caller stands. After its select it has one fixed way to go. */
  datatype Caller =
    | Selecting
    | StopListenerFirst | AwaitListenerFirst
    | StopScaler | AwaitScaler
    | StopListenerLast | AwaitListenerLast
    | Deciding | Closing(deleting: bool) | Deleting | Returned

  datatype Worker = Alive | Exited(result: Err)

  /** What the session and the scale set were asked for, with the outcome. */
  datatype Call = CloseSession(ok: bool) | DeleteScaleSet(ok: bool)

  /** Each channel holds one result; `got` is the result the caller received from it. */
  datatype Peer = Peer(worker: Worker, canceled: bool, channel: Option<Err>, got: Option<Err>)

  datatype State = State(caller: Caller, processDone: bool, listener: Peer, scaler: Peer, calls: seq<Call>,
          error: set<Err>)

  datatype Step =
    | ProcessCanceled
    | ListenerExits(result: Err)
    | ScalerExits(result: Err)
    | SeeProcessDone
    | SeeListener
    | SeeScaler
    | CancelListener
    | ReceiveListener
    | CancelScaler
    | ReceiveScaler
    | Decide
    | Close(ok: bool)
    | Delete(ok: bool)

  const PEER := Peer(Alive, false, None, None)
  const START := State(Selecting, false, PEER, PEER, [], {})

  predicate CanReceive(p: Peer) {
    p.channel.Some?
  }

  function Received(p: Peer): Peer
    requires CanReceive(p)
  {
    p.(got := p.channel, channel := None)
  }

  function Exits(p: Peer, result: Err): Peer {
    p.(worker := Exited(result), channel := Some(result))
  }

  predicate May(s: State, a: Step) {
    match a
    case ProcessCanceled => true
    case ListenerExits(_) => s.listener.worker == Alive
    case ScalerExits(_) => s.scaler.worker == Alive
    case SeeProcessDone => s.caller == Selecting && s.processDone
    case SeeListener => s.caller == Selecting && CanReceive(s.listener)
    case SeeScaler => s.caller == Selecting && CanReceive(s.scaler)
    case CancelListener => s.caller == StopListenerFirst || s.caller == StopListenerLast
    case ReceiveListener => (s.caller == AwaitListenerFirst || s.caller == AwaitListenerLast) && CanReceive(s.listener)
    case CancelScaler => s.caller == StopScaler
    case ReceiveScaler => s.caller == AwaitScaler && CanReceive(s.scaler)
    case Decide => s.caller == Deciding && s.listener.got.Some? && s.scaler.got.Some?
    case Close(_) => s.caller.Closing?
    case Delete(_) => s.caller == Deleting
  }

  /** What the caller returns for the two results, before it cleans up. */
  function Verdict(listenerErr: Err, scalerErr: Err): set<Err> {
    if scalerErr == ScaleSetDrained then {}
    else if scalerErr != Ok && scalerErr != Canceled then {scalerErr}
    else if listenerErr != Ok && listenerErr != Canceled then {listenerErr}
    else {}
  }

  const CLOSE_FAILED := Failure(-1)
  const DELETE_FAILED := Failure(-2)

  function Next(s: State, a: Step): State
    requires May(s, a)
  {
    match a
    case ProcessCanceled => s.(processDone := true)
    case ListenerExits(r) => s.(listener := Exits(s.listener, r))
    case ScalerExits(r) => s.(scaler := Exits(s.scaler, r))
    case SeeProcessDone => s.(caller := StopListenerFirst)
    case SeeListener => s.(caller := StopScaler, listener := Received(s.listener))
    case SeeScaler => s.(caller := StopListenerLast, scaler := Received(s.scaler))
    case CancelListener =>
      s.(caller := if s.caller == StopListenerFirst then AwaitListenerFirst else AwaitListenerLast,
         listener := s.listener.(canceled := true))
    case ReceiveListener =>
      if s.caller == AwaitListenerFirst then s.(caller := StopScaler, listener := Received(s.listener))
      else Over(s.(listener := Received(s.listener)))
    case CancelScaler => s.(caller := AwaitScaler, scaler := s.scaler.(canceled := true))
    case ReceiveScaler => Over(s.(scaler := Received(s.scaler)))
    case Decide =>
      s.(caller := Closing(s.scaler.got.value == ScaleSetDrained), error := Verdict(s.listener.got.value,
              s.scaler.got.value))
    case Close(ok) =>
      s.(caller := if s.caller.deleting then Deleting else Returned, calls := s.calls + [CloseSession(ok)],
         error := if ok then s.error else s.error + {CLOSE_FAILED})
    case Delete(ok) =>
      s.(caller := Returned, calls := s.calls + [DeleteScaleSet(ok)],
         error := if ok then s.error else s.error + {DELETE_FAILED})
  }

  /** Both results are in: the deferred calls cancel both contexts. */
  function Over(s: State): State {
    s.(caller := Deciding, listener := s.listener.(canceled := true), scaler := s.scaler.(canceled := true))
  }

  function After(steps: seq<Step>): Option<State> {
    if |steps| == 0 then Some(START)
    else
      var k := |steps| - 1;
      match After(steps[..k])
      case None => None
      case Some(s) => if May(s, steps[k]) then Some(Next(s, steps[k])) else None
  }

  // ----- What every interleaving keeps -----

  /** A result is nowhere, in the channel, or received: never twice, never lost. */
  predicate OnceEach(p: Peer) {
    match p.worker
    case Alive => p.channel.None? && p.got.None?
    case Exited(r) => (p.channel == Some(r) && p.got.None?) || (p.channel.None? && p.got == Some(r))
  }

  predicate BeforeResult(c: Caller) {
    c == StopListenerFirst || c == AwaitListenerFirst || c == Selecting
  }

  predicate AfterBoth(c: Caller) {
    c == Deciding || c.Closing? || c == Deleting || c == Returned
  }

  /** The order of the calls made so far, for where the caller stands. */
  predicate CallsFit(s: State) {
    match s.caller
    case Deleting => |s.calls| == 1 && s.calls[0].CloseSession? && s.scaler.got == Some(ScaleSetDrained)
    case Closing(d) => s.calls == [] && (d <==> s.scaler.got == Some(ScaleSetDrained))
    case Returned =>
      && 1 <= |s.calls| <= 2 && s.calls[0].CloseSession?
      && (|s.calls| == 2 <==> s.scaler.got == Some(ScaleSetDrained))
      && (|s.calls| == 2 ==> s.calls[1].DeleteScaleSet?)
    case _ => s.calls == []
  }

  predicate AllOk(calls: seq<Call>) {
    forall i :: 0 <= i < |calls| ==> calls[i].ok
  }

  /** Results that end a run well: a drained scale set whatever the listener said, or
      two peers that stopped without complaint. */
  predicate Benign(listenerErr: Err, scalerErr: Err) {
    scalerErr == ScaleSetDrained || ((scalerErr == Ok || scalerErr == Canceled) &&
            (listenerErr == Ok || listenerErr == Canceled))
  }

  /** What the clean-up adds to the error returned. */
  function CallErrors(calls: seq<Call>): set<Err> {
    (if CloseSession(false) in calls then {CLOSE_FAILED} else {}) +
    (if DeleteScaleSet(false) in calls then {DELETE_FAILED} else {})
  }

  predicate ErrorFits(s: State) {
    if s.caller.Closing? || s.caller == Deleting || s.caller == Returned then
      s.listener.got.Some? && s.scaler.got.Some? &&
      (s.error == {} <==> AllOk(s.calls) && Benign(s.listener.got.value, s.scaler.got.value)) &&
      (s.caller.Closing? ==> s.calls == []) &&
      s.error == Verdict(s.listener.got.value, s.scaler.got.value) + CallErrors(s.calls)
    else s.error == {}
  }

  lemma VerdictBenign(listenerErr: Err, scalerErr: Err)
    ensures Verdict(listenerErr, scalerErr) == {} <==> Benign(listenerErr, scalerErr)
  {
    if !Benign(listenerErr, scalerErr) {
      assert scalerErr in Verdict(listenerErr, scalerErr) || listenerErr in Verdict(listenerErr, scalerErr);
    }
  }

  lemma ErrorStep(s: State, a: Step)
    requires Sound(s) && ErrorFits(s) && May(s, a)
    ensures ErrorFits(Next(s, a))
  {
    match a
    case Decide => VerdictBenign(s.listener.got.value, s.scaler.got.value);
    case Close(ok) =>
      if !ok {
        assert CLOSE_FAILED in Next(s, a).error;
        assert !Next(s, a).calls[|s.calls|].ok;
      }
    case Delete(ok) =>
      if !ok {
        assert DELETE_FAILED in Next(s, a).error;
        assert !Next(s, a).calls[|s.calls|].ok;
      } else if !AllOk(s.calls) {
        var i :| 0 <= i < |s.calls| && !s.calls[i].ok;
        assert !Next(s, a).calls[i].ok;
      }
    case _ =>
  }

  predicate Sound(s: State) {
    && OnceEach(s.listener) && OnceEach(s.scaler)
    && (s.scaler.canceled ==> s.listener.worker.Exited?)
    && (BeforeResult(s.caller) ==> s.listener.got.None? && s.scaler.got.None?)
    && (s.caller == StopScaler || s.caller == AwaitScaler ==> s.listener.got.Some? && s.scaler.got.None?)
    && (s.caller == StopListenerLast || s.caller == AwaitListenerLast ==> s.scaler.got.Some? && s.listener.got.None?)
    && (AfterBoth(s.caller) ==> s.listener.got.Some? && s.scaler.got.Some?)
    && (s.caller == AwaitListenerFirst || s.caller == AwaitListenerLast ==> s.listener.canceled)
    && (s.caller == AwaitScaler ==> s.scaler.canceled)
    && CallsFit(s)
  }

  lemma StepSound(s: State, a: Step)
    requires Sound(s) && May(s, a)
    ensures Sound(Next(s, a))
  {
  }

  lemma {:induction false} AlwaysSound(steps: seq<Step>)
    requires After(steps).Some?
    ensures Sound(After(steps).value) && ErrorFits(After(steps).value)
  {
    if |steps| > 0 {
      hide Sound, ErrorFits, Next, May;
      var k := |steps| - 1;
      AlwaysSound(steps[..k]);
      ErrorStep(After(steps[..k]).value, steps[k]);
      StepSound(After(steps[..k]).value, steps[k]);
    }
  }

  /** The scaler is never cancelled before the listener has returned. */
  lemma ListenerFirst(steps: seq<Step>)
    requires After(steps).Some? && After(steps).value.scaler.canceled
    ensures After(steps).value.listener.worker.Exited?
  {
    AlwaysSound(steps);
  }

  /** The caller gets past both peers only with the result each of them exited with. */
  lemma BothFinished(steps: seq<Step>)
    requires After(steps).Some? && AfterBoth(After(steps).value.caller)
    ensures var s := After(steps).value;
            && s.listener.worker.Exited? && s.listener.got == Some(s.listener.worker.result)
            && s.scaler.worker.Exited? && s.scaler.got == Some(s.scaler.worker.result)
  {
    AlwaysSound(steps);
  }

  /** The scale set is deleted exactly when the scaler reported it drained, and only
      after both peers are gone and closing the session has returned. */
  lemma DeletedOnlyWhenDrained(steps: seq<Step>)
    requires After(steps).Some?
    ensures var s := After(steps).value;
            forall i :: 0 <= i < |s.calls| && s.calls[i].DeleteScaleSet? ==>
              && i == 1 && s.calls[0].CloseSession?
              && s.scaler.worker == Exited(ScaleSetDrained) && s.listener.worker.Exited?
    ensures var s := After(steps).value;
            s.caller == Returned && s.scaler.worker == Exited(ScaleSetDrained) ==>
              |s.calls| == 2 && s.calls[1].DeleteScaleSet?
  {
    AlwaysSound(steps);
  }

  lemma AfterMore(steps: seq<Step>, a: Step)
    requires After(steps).Some? && May(After(steps).value, a)
    ensures After(steps + [a]) == Some(Next(After(steps).value, a))
  {
    assert (steps + [a])[..|steps|] == steps;
  }

  /** A drained scaler, and the listener it has cancelled. */
  const DRAINED_FIRST := [ScalerExits(ScaleSetDrained), SeeScaler, CancelListener, ListenerExits(Canceled),
                          ReceiveListener, Decide]

  /** The caller does come to close the session of a drained scale set. */
  lemma ComesToClosing()
    ensures After(DRAINED_FIRST).Some? && After(DRAINED_FIRST).value.caller == Closing(true)
  {
    AfterNone();
    hide After;
    AfterMore([], ScalerExits(ScaleSetDrained));
    var a := [] + [ScalerExits(ScaleSetDrained)];
    AfterMore(a, SeeScaler);
    var b := a + [SeeScaler];
    AfterMore(b, CancelListener);
    var c := b + [CancelListener];
    AfterMore(c, ListenerExits(Canceled));
    var d := c + [ListenerExits(Canceled)];
    AfterMore(d, ReceiveListener);
    var e := d + [ReceiveListener];
    AfterMore(e, Decide);
    assert e + [Decide] == DRAINED_FIRST;
  }

  lemma AfterNone()
    ensures After([]) == Some(START)
  {
  }

  /** A failure to close the session does not keep a drained scale set: it is deleted
      all the same, and the failure is what the caller returns. */
  lemma DeletedDespiteFailedClose(steps: seq<Step>)
    requires After(steps).Some? && After(steps).value.caller == Closing(true)
    ensures var r := After(steps + [Close(false)] + [Delete(true)]);
            r.Some? && r.value.caller == Returned && r.value.error == {CLOSE_FAILED} &&
            r.value.calls == [CloseSession(false), DeleteScaleSet(true)]
  {
    AlwaysSound(steps);
    assert After(steps).value.error == {};
    AfterMore(steps, Close(false));
    AfterMore(steps + [Close(false)], Delete(true));
  }

  /** The caller succeeds exactly when the peers' results call for no error and every
      call of the clean-up succeeded. */
  lemma SucceedsExactlyWhen(steps: seq<Step>)
    requires After(steps).Some? && After(steps).value.caller == Returned
    ensures var s := After(steps).value;
            s.listener.worker.Exited? && s.scaler.worker.Exited? &&
            (s.error == {} <==> AllOk(s.calls) && Benign(s.listener.worker.result, s.scaler.worker.result))
  {
    AlwaysSound(steps);
  }

  /** What is returned: nothing of the peers' when the scaler drained, else the scaler's
      failure, else the listener's; cancellation is no failure; and each failed call of the
      clean-up. */
  lemma WhatIsReturned(steps: seq<Step>)
    requires After(steps).Some? && After(steps).value.caller == Returned
    ensures var s := After(steps).value;
            && s.listener.worker.Exited? && s.scaler.worker.Exited?
            && var (l, r) := (s.listener.worker.result, s.scaler.worker.result);
               s.error ==
               (match r
                case ScaleSetDrained => {}
                case Failure(_) => {r}
                case _ => if l == Ok || l == Canceled then {} else {l}) +
               (if CloseSession(false) in s.calls then {CLOSE_FAILED} else {}) +
               (if DeleteScaleSet(false) in s.calls then {DELETE_FAILED} else {})
  {
    AlwaysSound(steps);
  }

  /** No step but a peer's exit or the end of the process is wanting. */
  predicate CallerCanMove(s: State) {
    match s.caller
    case Selecting => s.processDone || CanReceive(s.listener) || CanReceive(s.scaler)
    case AwaitListenerFirst => CanReceive(s.listener)
    case AwaitListenerLast => CanReceive(s.listener)
    case AwaitScaler => CanReceive(s.scaler)
    case Returned => false
    case _ => true
  }

  /** No deadlock: the caller moves, has returned, waits for the first thing to happen,
      or waits for a peer that is still running and has been cancelled. */
  lemma NeverStuck(steps: seq<Step>)
    requires After(steps).Some?
    ensures var s := After(steps).value;
            || CallerCanMove(s) || s.caller == Returned
            || (s.caller == Selecting && s.listener.worker == Alive && s.scaler.worker == Alive && !s.processDone)
            || ((s.caller == AwaitListenerFirst || s.caller == AwaitListenerLast) &&
                s.listener.worker == Alive && s.listener.canceled)
            || (s.caller == AwaitScaler && s.scaler.worker == Alive && s.scaler.canceled)
  {
    AlwaysSound(steps);
  }

  /** The caller's steps still to come. */
  function CallerLeft(c: Caller): nat {
    match c
    case Selecting => 8
    case StopListenerFirst => 7
    case AwaitListenerFirst => 6
    case StopScaler => 5
    case AwaitScaler => 4
    case StopListenerLast => 5
    case AwaitListenerLast => 4
    case Deciding => 3
    case Closing(_) => 2
    case Deleting => 1
    case Returned => 0
  }

  function StepsLeft(s: State): nat {
    CallerLeft(s.caller) + (if s.listener.worker == Alive then 1 else 0) + (if s.scaler.worker == Alive then 1 else 0)
  }

  function Count(steps: seq<Step>): nat {
    if |steps| == 0 then 0
    else Count(steps[..|steps| - 1]) + (if steps[|steps| - 1] == ProcessCanceled then 0 else 1)
  }

  /** Every interleaving is short: ten steps beyond those that cancel the process. */
  lemma {:induction false} TenSteps(steps: seq<Step>)
    requires After(steps).Some?
    ensures Count(steps) + StepsLeft(After(steps).value) <= 10
  {
    if |steps| > 0 {
      TenSteps(steps[..|steps| - 1]);
    }
  }
}
