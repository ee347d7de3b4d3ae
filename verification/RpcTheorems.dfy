/** What every run of the RPC protocol guarantees. */
module RpcTheorems {
  import opened Wrappers
  import opened RpcProtocol
  import opened RpcInvariant
  import opened WsFrames

  lemma ReachableInv(now: int, steps: seq<Step>)
    requires CanRun(Initial(now), steps)
    ensures Inv(Run(Initial(now), steps))
  {
    RunKeepsInv(Initial(now), steps);
  }

  // ---------------------------------------------------------------- no stranded caller

  /**
   A call blocked in its select is still pending, or a handler past its unlock will answer it,
   or a canceller past its unlock will cancel it, or the device's answer could not be decoded
   (then only the deadline is left).
   */
  lemma NoStrandedCaller(now: int, steps: seq<Step>, id: ReqId)
    requires CanRun(Initial(now), steps) && At(Run(Initial(now), steps), id, Parked)
    ensures var s := Run(Initial(now), steps);
            id in s.pending || ResponseOnItsWay(s, id) || CancelOnItsWay(s, id) || ResponseLost(s, id)
  {
    var s := Run(Initial(now), steps);
    ReachableInv(now, steps);
    assert CallOk(s.calls[id], s.now) && NotStranded(s, id);
  }

  /** With answers that come from frames the last case is gone, and the coming response is well formed. */
  lemma NoStrandedCallerFromFrames(now: int, steps: seq<Step>, frames: set<Frame>, id: ReqId)
    requires CanRun(Initial(now), steps) && FromFrames(steps, frames)
    requires At(Run(Initial(now), steps), id, Parked)
    ensures var s := Run(Initial(now), steps);
            id in s.pending || CancelOnItsWay(s, id)
            || exists h :: InStage(s, h, Took) && s.handlers[h].reqID == id && Convert(id, s.handlers[h].data).Some?
  {
    var s := Run(Initial(now), steps);
    NoStrandedCaller(now, steps, id);
    HandlersComeFromFrames(Initial(now), steps, frames);
    if ResponseOnItsWay(s, id) {
      var h :| h in s.handlers && s.handlers[h].reqID == id && s.handlers[h].stage == Took;
      assert FromFrame(id, s.handlers[h].data, frames);
      assert InStage(s, h, Took);
    }
  }

  // ---------------------------------------------------------------- at most one resolution

  lemma ResolvedAtMostOnce(now: int, steps: seq<Step>, h: nat, k: nat)
    requires CanRun(Initial(now), steps)
    requires var s := Run(Initial(now), steps);
             h in s.handlers && k in s.handlers && s.handlers[h].reqID == s.handlers[k].reqID
             && TookRequest(s.handlers[h]) && TookRequest(s.handlers[k])
    ensures h == k
  {
    ReachableInv(now, steps);
  }

  /** The "channel full" branch of HandleResponse is dead, and a pending id has an empty channel. */
  lemma ChannelNeverFull(now: int, steps: seq<Step>)
    requires CanRun(Initial(now), steps)
    ensures var s := Run(Initial(now), steps);
            && (forall id :: id in s.pending ==> id in s.calls && s.calls[id].channel.None?)
            && (forall h :: InStage(s, h, Took) ==> CanSend(s.calls[s.handlers[h].reqID]))
            && (forall h :: h in s.handlers ==> s.handlers[h].stage != Finished(ChannelUnavailable))
  {
    var s := Run(Initial(now), steps);
    ReachableInv(now, steps);
    forall h | InStage(s, h, Took) ensures CanSend(s.calls[s.handlers[h].reqID]) {
      TakenCanSend(s, h);
    }
    forall h | h in s.handlers ensures s.handlers[h].stage != Finished(ChannelUnavailable) {
      assert HandlerOk(s, s.handlers[h]);
    }
  }

  // ---------------------------------------------------------------- correlation

  /**
   End to end, whatever else is outstanding: an answer returned by a call carries its id and the
   payload of a frame received for that id, and succeeds exactly when that frame was a `*_resp`.
   */
  lemma AnswerIsCorrelated(now: int, steps: seq<Step>, frames: set<Frame>, id: ReqId, r: Response)
    requires CanRun(Initial(now), steps) && FromFrames(steps, frames)
    requires At(Run(Initial(now), steps), id, Returned(Answered(r)))
    ensures r.reqID == id && r.error.None?
    ensures exists f :: f in frames && f.reqID == id && f.deviceID != "" && f.payload == r.payload
                        && (if r.success then IsRpcResponse(f.kind) else f.kind.Error?)
  {
    var s := Run(Initial(now), steps);
    ReachableInv(now, steps);
    HandlersComeFromFrames(Initial(now), steps, frames);
    assert Answer(s.calls[id]) == Some(r);
    assert AnswerFrom(s, id, r);
    var h :| h in s.handlers && s.handlers[h].reqID == id && Convert(id, s.handlers[h].data) == Some(r);
    assert FromFrame(id, s.handlers[h].data, frames);
  }

  // ---------------------------------------------------------------- response against cancellation

  predicate GotAnswer(s: State, id: ReqId, r: Response) {
    At(s, id, Received(r)) || At(s, id, Returned(Answered(r)))
  }

  /** What another thread's step can do to a call: nothing, cancel it, or send to it. */
  predicate Touched(c: Call, d: Call) {
    d == c || d == Cancel(c, Canceled)
    || (c.pc.Parked? && d.pc.Received? && d == Send(c, d.pc.resp))
    || (!c.pc.Parked? && c.channel.None? && d.channel.Some? && d == Send(c, d.channel.value))
  }

  /** A step is a call's own, or it only touches the call. */
  lemma StepOnCall(s: State, step: Step, id: ReqId)
    requires Enabled(s, step) && id in s.calls
    ensures id in Apply(s, step).calls
    ensures var d := Apply(s, step).calls[id];
            if IsOwn(step) && step.id == id then d == Own(s.calls[id], step, s.now) else Touched(s.calls[id], d)
  {
  }

  lemma StepKeepsAnswer(s: State, step: Step, id: ReqId, r: Response)
    requires Inv(s) && Enabled(s, step) && GotAnswer(s, id, r)
    ensures GotAnswer(Apply(s, step), id, r)
  {
    StepOnCall(s, step, id);
  }

  lemma {:induction false} AnswerIsKept(s: State, steps: seq<Step>, id: ReqId, r: Response)
    requires Inv(s) && CanRun(s, steps) && GotAnswer(s, id, r)
    ensures GotAnswer(Run(s, steps), id, r)
    decreases |steps|
  {
    if steps != [] {
      StepKeepsInv(s, steps[0]);
      StepKeepsAnswer(s, steps[0], id, r);
      AnswerIsKept(Apply(s, steps[0]), steps[1..], id, r);
    }
  }

  lemma RunFirst(s: State, step: Step, rest: seq<Step>)
    requires Enabled(s, step) && CanRun(Apply(s, step), rest)
    ensures CanRun(s, [step] + rest) && Run(s, [step] + rest) == Run(Apply(s, step), rest)
  {
  }

  /** The caller's own way out from `pc` when it sees its context done, or had failed to send. */
  function WayOut(pc: Pc, id: ReqId): seq<Step>
    decreases StepsLeft(pc)
  {
    match pc
    case Registered => [SendOk(id)] + WayOut(AtSelect, id)
    case AtSelect => [Select(id, false)] + WayOut(Woken, id)
    case Woken => [Withdraw(id)] + WayOut(Withdrawn, id)
    case Withdrawn => [ReturnDone(id)]
    case SendFailed => [Unregister(id)] + WayOut(Unregistered, id)
    case Unregistered => [ReturnSendError(id)]
    case _ => []
  }

  predicate OnWayToDone(c: Call) {
    c.ctx != Live && (c.pc.Registered? || c.pc.AtSelect? || c.pc.Woken? || c.pc.Withdrawn?)
  }

  lemma {:induction false} WayOutLoses(s: State, id: ReqId, r: Response)
    requires id in s.calls
    requires OnWayToDone(s.calls[id]) || s.calls[id].pc.SendFailed? || s.calls[id].pc.Unregistered?
             || ReturnedWithout(s, id, r)
    ensures var steps := WayOut(s.calls[id].pc, id);
            CanRun(s, steps) && ReturnedWithout(Run(s, steps), id, r) && Run(s, steps).handlers == s.handlers
    ensures OnWayToDone(s.calls[id]) && s.calls[id].ctx == Canceled ==>
              At(Run(s, WayOut(s.calls[id].pc, id)), id, Returned(WasCancelled))
    decreases StepsLeft(s.calls[id].pc)
  {
    var steps := WayOut(s.calls[id].pc, id);
    if steps != [] {
      var t := Apply(s, steps[0]);
      WayOutLoses(t, id, r);
      assert steps == [steps[0]] + WayOut(t.calls[id].pc, id);
      RunFirst(s, steps[0], WayOut(t.calls[id].pc, id));
    }
  }

  /** What a caller not parked at the moment of the send can still be led to, losing the response. */
  function LosingRun(pc: Pc, h: nat, id: ReqId): seq<Step> {
    if pc.Registered? || pc.AtSelect? then [CancelAfterSend(h)] + WayOut(pc, id) else WayOut(pc, id)
  }

  predicate ReturnedWithout(s: State, id: ReqId, r: Response) {
    id in s.calls && s.calls[id].pc.Returned? && s.calls[id].pc.outcome != Answered(r)
  }

  lemma LosingRunLoses(s: State, h: nat, r: Response)
    requires Inv(s) && InStage(s, h, Took) && Convert(s.handlers[h].reqID, s.handlers[h].data) == Some(r)
    requires !s.calls[s.handlers[h].reqID].pc.Parked?
    ensures var t := Apply(s, SendResponse(h));
            var steps := LosingRun(s.calls[s.handlers[h].reqID].pc, h, s.handlers[h].reqID);
            CanRun(t, steps) && ReturnedWithout(Run(t, steps), s.handlers[h].reqID, r)
  {
    var id := s.handlers[h].reqID;
    TakenCanSend(s, h);
    assert HandlerOk(s, s.handlers[h]) && CallOk(s.calls[id], s.now);
    var pc := s.calls[id].pc;
    var t := Apply(s, SendResponse(h));
    if pc.Registered? || pc.AtSelect? {
      var u := Apply(t, CancelAfterSend(h));
      WayOutLoses(u, id, r);
      RunFirst(t, CancelAfterSend(h), WayOut(pc, id));
    } else if pc.Returned? {
      assert ReturnedWithout(t, id, r) && CanRun(t, []);
    } else {
      WayOutLoses(t, id, r);
    }
  }

  ghost predicate AlwaysAnswered(s: State, id: ReqId, r: Response) {
    forall steps :: CanRun(s, steps) ==> !ReturnedWithout(Run(s, steps), id, r)
  }

  /**
   The comment at the send promises that a response wins over the cancellation that follows it.
   That is so exactly when the caller is already parked at its select: then it returns the
   response in every continuation; otherwise some continuation returns without it.
   */
  lemma ResponseWinsIffParked(s: State, h: nat, r: Response)
    requires Inv(s) && InStage(s, h, Took) && Convert(s.handlers[h].reqID, s.handlers[h].data) == Some(r)
    ensures s.calls[s.handlers[h].reqID].pc.Parked?
            <==> AlwaysAnswered(Apply(s, SendResponse(h)), s.handlers[h].reqID, r)
  {
    var id := s.handlers[h].reqID;
    var t := Apply(s, SendResponse(h));
    TakenCanSend(s, h);
    StepKeepsInv(s, SendResponse(h));
    if s.calls[id].pc.Parked? {
      forall steps | CanRun(t, steps) ensures !ReturnedWithout(Run(t, steps), id, r) {
        AnswerIsKept(t, steps, id, r);
      }
    } else {
      LosingRunLoses(s, h, r);
      assert !AlwaysAnswered(t, id, r);
    }
  }

  /** HandleResponse reports success for a caller still sending, and the Call returns ErrCancelled. */
  lemma DeliveredToSender(s: State, h: nat, r: Response)
    requires Inv(s) && InStage(s, h, Took) && Convert(s.handlers[h].reqID, s.handlers[h].data) == Some(r)
    requires s.calls[s.handlers[h].reqID].pc.Registered? && s.calls[s.handlers[h].reqID].ctx == Live
    ensures var id := s.handlers[h].reqID;
            var steps := [SendResponse(h)] + LosingRun(Registered, h, id);
            CanRun(s, steps) && At(Run(s, steps), id, Returned(WasCancelled))
            && Delivery(Run(s, steps), h, WasCancelled)
  {
    var id := s.handlers[h].reqID;
    TakenCanSend(s, h);
    var t := Apply(s, SendResponse(h));
    var u := Apply(t, CancelAfterSend(h));
    WayOutLoses(u, id, r);
    RunFirst(t, CancelAfterSend(h), WayOut(Registered, id));
    RunFirst(s, SendResponse(h), LosingRun(Registered, h, id));
  }

  /** A caller still sending while its response has been taken from the pending map. */
  lemma EarlyResponse() returns (steps: seq<Step>)
    ensures CanRun(Initial(0), steps)
    ensures var s := Run(Initial(0), steps);
            InStage(s, 0, Took) && s.handlers[0].reqID == "a" && Convert("a", s.handlers[0].data).Some?
            && s.calls["a"].pc.Registered? && s.calls["a"].ctx == Live
  {
    var take := TakeResponse(0, "a", Mapped(Some("x"), Some(true)));
    var s0 := Initial(0);
    var s1 := Apply(s0, Begin("a", "dev", "list", 10));
    var s2 := Apply(s1, Stamp("a"));
    var s3 := Apply(s2, Register("a"));
    RunFirst(s3, take, []);
    RunFirst(s2, Register("a"), [take] + []);
    RunFirst(s1, Stamp("a"), [Register("a")] + ([take] + []));
    RunFirst(s0, Begin("a", "dev", "list", 10), [Stamp("a")] + ([Register("a")] + ([take] + [])));
    steps := [Begin("a", "dev", "list", 10)] + ([Stamp("a")] + ([Register("a")] + ([take] + [])));
  }

  lemma {:induction false} RunsCompose(s: State, a: seq<Step>, b: seq<Step>)
    requires CanRun(s, a) && CanRun(Run(s, a), b)
    ensures CanRun(s, a + b) && Run(s, a + b) == Run(Run(s, a), b)
    decreases |a|
  {
    if a == [] {
      assert a + b == b;
    } else {
      assert (a + b)[1..] == a[1..] + b;
      RunsCompose(Apply(s, a[0]), a[1..], b);
    }
  }

  ghost predicate Delivery(s: State, h: nat, outcome: Outcome) {
    h in s.handlers && s.handlers[h].stage == Finished(Delivered) && At(s, s.handlers[h].reqID, Returned(outcome))
  }

  /** A run of that kind from the initial state. */
  lemma DeliveredYetCancelled()
    ensures exists steps :: CanRun(Initial(0), steps) && Delivery(Run(Initial(0), steps), 0, WasCancelled)
  {
    var early := EarlyResponse();
    var s := Run(Initial(0), early);
    ReachableInv(0, early);
    DeliveredToSender(s, 0, Convert("a", s.handlers[0].data).value);
    var late := [SendResponse(0)] + LosingRun(Registered, 0, "a");
    RunsCompose(Initial(0), early, late);
    assert Delivery(Run(Initial(0), early + late), 0, WasCancelled);
  }

  // ---------------------------------------------------------------- no leaked request

  lemma StepLeavesReturned(s: State, step: Step, id: ReqId, outcome: Outcome)
    requires Enabled(s, step) && At(s, id, Returned(outcome)) && id !in s.pending
    ensures At(Apply(s, step), id, Returned(outcome)) && id !in Apply(s, step).pending
  {
    StepOnCall(s, step, id);
  }

  /** A returned call has left the pending map for good, and its outcome is final. */
  lemma {:induction false} ReturnedStaysOut(s: State, steps: seq<Step>, id: ReqId, outcome: Outcome)
    requires Inv(s) && CanRun(s, steps) && At(s, id, Returned(outcome))
    ensures At(Run(s, steps), id, Returned(outcome)) && id !in Run(s, steps).pending
    decreases |steps|
  {
    if steps != [] {
      StepKeepsInv(s, steps[0]);
      StepLeavesReturned(s, steps[0], id, outcome);
      ReturnedStaysOut(Apply(s, steps[0]), steps[1..], id, outcome);
    }
  }

  /** The pending map only ever holds calls that have not returned, each under its own record. */
  lemma PendingAreInFlight(now: int, steps: seq<Step>, id: ReqId)
    requires CanRun(Initial(now), steps) && id in Run(Initial(now), steps).pending
    ensures var s := Run(Initial(now), steps);
            id in s.calls && !s.calls[id].pc.Returned? && s.pending[id] == RecordOf(s.calls[id])
  {
    ReachableInv(now, steps);
  }

  // ---------------------------------------------------------------- cleanup

  /** CleanupExpired never cuts short a call whose deadline is still ahead. */
  lemma CleanupOnlyAfterDeadline(now: int, steps: seq<Step>, id: ReqId)
    requires CanRun(Initial(now), steps) && id in Run(Initial(now), steps).calls
    ensures var s := Run(Initial(now), steps);
            var t := Apply(s, Cleanup);
            && (id in s.pending && id !in t.pending ==> s.calls[id].deadline < s.now)
            && (s.now <= s.calls[id].deadline ==>
                  t.calls[id] == s.calls[id] && (id in t.pending <==> id in s.pending))
  {
    var s := Run(Initial(now), steps);
    ReachableInv(now, steps);
    assert CallOk(s.calls[id], s.now);
  }

  // ---------------------------------------------------------------- every call returns

  /** Own steps a call has left at most. */
  function StepsLeft(pc: Pc): nat {
    match pc
    case ContextMade => 7
    case Stamped => 6
    case Registered => 5
    case AtSelect => 4
    case Parked => 3
    case Woken => 2
    case SendFailed => 2
    case Withdrawn => 1
    case Unregistered => 1
    case Received(_) => 1
    case Returned(_) => 0
  }

  function TimeLeft(s: State, id: ReqId): nat
    requires id in s.calls
  {
    if s.calls[id].deadline <= s.now then 0 else s.calls[id].deadline - s.now
  }

  /** A step that is always there for a call that has not returned: its own, its deadline's, or time itself. */
  function NextFor(s: State, id: ReqId): Step
    requires id in s.calls && !s.calls[id].pc.Returned?
  {
    var c := s.calls[id];
    if c.pc.Parked? && s.now < c.deadline then Tick(c.deadline - s.now) else NextOwn(c.pc, id)
  }

  function NextOwn(pc: Pc, id: ReqId): Step
    requires !pc.Returned?
  {
    match pc
    case ContextMade => Stamp(id)
    case Stamped => Register(id)
    case Registered => SendOk(id)
    case AtSelect => Select(id, true)
    case Parked => FireDeadline(id)
    case Woken => Withdraw(id)
    case SendFailed => Unregister(id)
    case Withdrawn => ReturnDone(id)
    case Unregistered => ReturnSendError(id)
    case Received(_) => ReturnResponse(id)
  }

  lemma OwnNeverSetsBack(c: Call, step: Step, now: int)
    requires IsOwn(step) && OwnEnabled(c, step, now) && CallOk(c, now)
    ensures var d := Own(c, step, now);
            d.deadline == c.deadline && StepsLeft(d.pc) <= StepsLeft(c.pc)
            && (StepsLeft(d.pc) == StepsLeft(c.pc) ==> d.pc == c.pc)
  {
  }

  lemma NextOwnIsProgress(c: Call, id: ReqId, now: int)
    requires CallOk(c, now) && !c.pc.Returned? && (c.pc.Parked? ==> c.deadline <= now)
    ensures IsOwn(NextOwn(c.pc, id)) && OwnEnabled(c, NextOwn(c.pc, id), now)
    ensures StepsLeft(Own(c, NextOwn(c.pc, id), now).pc) < StepsLeft(c.pc)
  {
  }

  /** No step of any thread takes a call further from its return, and one that leaves it as far leaves it in place. */
  lemma NoStepSetsBack(s: State, step: Step, id: ReqId)
    requires id in s.calls && CallOk(s.calls[id], s.now) && Enabled(s, step)
    ensures var t := Apply(s, step);
            id in t.calls && t.calls[id].deadline == s.calls[id].deadline && s.now <= t.now
            && StepsLeft(t.calls[id].pc) <= StepsLeft(s.calls[id].pc) && TimeLeft(t, id) <= TimeLeft(s, id)
            && (StepsLeft(t.calls[id].pc) == StepsLeft(s.calls[id].pc) ==> t.calls[id].pc == s.calls[id].pc)
  {
    StepOnCall(s, step, id);
    if IsOwn(step) && step.id == id {
      OwnNeverSetsBack(s.calls[id], step, s.now);
    }
    ClockNeverGoesBack(s, step);
  }

  lemma ClockNeverGoesBack(s: State, step: Step)
    requires Enabled(s, step)
    ensures s.now <= Apply(s, step).now
  {
  }

  /** The next step is enabled and is strict progress in (steps left, time left). */
  lemma NextIsProgress(s: State, id: ReqId)
    requires id in s.calls && CallOk(s.calls[id], s.now) && !s.calls[id].pc.Returned?
    ensures Enabled(s, NextFor(s, id))
    ensures var t := Apply(s, NextFor(s, id));
            id in t.calls
            && (StepsLeft(t.calls[id].pc) < StepsLeft(s.calls[id].pc)
                || (StepsLeft(t.calls[id].pc) == StepsLeft(s.calls[id].pc) && TimeLeft(t, id) < TimeLeft(s, id)))
  {
    var c := s.calls[id];
    if !(c.pc.Parked? && s.now < c.deadline) {
      NextOwnIsProgress(c, id, s.now);
    }
  }

  /** Steps of other threads leave the next step in place until the call itself has moved on. */
  lemma NextStaysEnabled(s: State, step: Step, id: ReqId)
    requires Inv(s) && Enabled(s, step) && id in s.calls && !s.calls[id].pc.Returned?
    requires StepsLeft(Apply(s, step).calls[id].pc) == StepsLeft(s.calls[id].pc)
    requires !NextFor(s, id).Tick?
    ensures var t := Apply(s, step);
            !t.calls[id].pc.Returned? && NextFor(t, id) == NextFor(s, id) && Enabled(t, NextFor(s, id))
  {
    var t := Apply(s, step);
    assert CallOk(s.calls[id], s.now);
    NoStepSetsBack(s, step, id);
    StepKeepsInv(s, step);
    assert CallOk(t.calls[id], t.now);
    NextIsProgress(t, id);
  }

  /** From every reachable state a call returns within eight steps, whatever the other threads do or do not do. */
  lemma {:induction false} EveryCallReturns(s: State, id: ReqId) returns (steps: seq<Step>)
    requires Inv(s) && id in s.calls
    ensures CanRun(s, steps) && id in Run(s, steps).calls && Run(s, steps).calls[id].pc.Returned?
    ensures |steps| <= StepsLeft(s.calls[id].pc) + (if TimeLeft(s, id) > 0 then 1 else 0)
    decreases StepsLeft(s.calls[id].pc), TimeLeft(s, id)
  {
    if s.calls[id].pc.Returned? {
      steps := [];
    } else {
      var step := NextFor(s, id);
      assert CallOk(s.calls[id], s.now);
      NextIsProgress(s, id);
      NoStepSetsBack(s, step, id);
      StepKeepsInv(s, step);
      var rest := EveryCallReturns(Apply(s, step), id);
      steps := [step] + rest;
      assert steps[1..] == rest;
    }
  }

  // ---------------------------------------------------------------- every fair run returns it

  /** A step that is the call's turn at `pc`: it goes on by itself, or its deadline fires while it is parked. */
  predicate MovesOn(pc: Pc, step: Step, id: ReqId) {
    match pc
    case Registered => step == SendOk(id) || step == SendErr(id)
    case AtSelect => step.Select? && step.id == id
    case Returned(_) => false
    case _ => step == NextOwn(pc, id)
  }

  lemma MoveIsProgress(c: Call, step: Step, id: ReqId, now: int)
    requires IsOwn(step) && OwnEnabled(c, step, now) && CallOk(c, now) && MovesOn(c.pc, step, id)
    ensures StepsLeft(Own(c, step, now).pc) < StepsLeft(c.pc)
  {
  }

  ghost predicate HasTurn(pc: Pc, steps: seq<Step>, id: ReqId) {
    exists i :: 0 <= i < |steps| && MovesOn(pc, steps[i], id)
  }

  lemma {:induction false} RunNeverSetsBack(s: State, steps: seq<Step>, id: ReqId)
    requires Inv(s) && CanRun(s, steps) && id in s.calls
    ensures var t := Run(s, steps);
            id in t.calls && t.calls[id].deadline == s.calls[id].deadline && s.now <= t.now
            && StepsLeft(t.calls[id].pc) <= StepsLeft(s.calls[id].pc)
            && (StepsLeft(t.calls[id].pc) == StepsLeft(s.calls[id].pc) ==> t.calls[id].pc == s.calls[id].pc)
    decreases |steps|
  {
    if steps != [] {
      assert CallOk(s.calls[id], s.now);
      NoStepSetsBack(s, steps[0], id);
      StepKeepsInv(s, steps[0]);
      RunNeverSetsBack(Apply(s, steps[0]), steps[1..], id);
    }
  }

  /** Whatever else happens in between, a run in which the call has its turn brings it closer to its return. */
  lemma {:induction false} TurnIsProgress(s: State, steps: seq<Step>, id: ReqId)
    requires Inv(s) && CanRun(s, steps) && id in s.calls && HasTurn(s.calls[id].pc, steps, id)
    ensures id in Run(s, steps).calls && StepsLeft(Run(s, steps).calls[id].pc) < StepsLeft(s.calls[id].pc)
    decreases |steps|
  {
    var t := Apply(s, steps[0]);
    assert CallOk(s.calls[id], s.now);
    NoStepSetsBack(s, steps[0], id);
    StepKeepsInv(s, steps[0]);
    RunNeverSetsBack(t, steps[1..], id);
    if MovesOn(s.calls[id].pc, steps[0], id) {
      StepOnCall(s, steps[0], id);
      MoveIsProgress(s.calls[id], steps[0], id, s.now);
    } else if t.calls[id].pc == s.calls[id].pc {
      var i :| 0 <= i < |steps| && MovesOn(s.calls[id].pc, steps[i], id);
      assert steps[1..][i - 1] == steps[i];
      TurnIsProgress(t, steps[1..], id);
    }
  }

  /** The call is somewhere else at the end: it has gone on, or a handler or a context event has moved it on. */
  predicate Moved(s: State, steps: seq<Step>, id: ReqId)
    requires CanRun(s, steps) && id in s.calls
  {
    id in Run(s, steps).calls && Run(s, steps).calls[id].pc != s.calls[id].pc
  }

  /** Rounds of any steps of any threads, in each of which the call, until it has returned, is moved or has its turn. */
  ghost predicate FairTo(s: State, rounds: seq<seq<Step>>, id: ReqId)
    decreases |rounds|
  {
    rounds != [] ==>
      CanRun(s, rounds[0]) && id in s.calls
      && (s.calls[id].pc.Returned? || Moved(s, rounds[0], id) || HasTurn(s.calls[id].pc, rounds[0], id))
      && FairTo(Run(s, rounds[0]), rounds[1..], id)
  }

  function AfterRounds(s: State, rounds: seq<seq<Step>>, id: ReqId): State
    requires FairTo(s, rounds, id)
    decreases |rounds|
  {
    if rounds == [] then s else AfterRounds(Run(s, rounds[0]), rounds[1..], id)
  }

  /** Under every fair schedule, with any interference, a call has returned after at most seven moves or turns. */
  lemma {:induction false} EveryFairRunReturns(s: State, rounds: seq<seq<Step>>, id: ReqId)
    requires Inv(s) && id in s.calls && FairTo(s, rounds, id) && StepsLeft(s.calls[id].pc) <= |rounds|
    ensures var t := AfterRounds(s, rounds, id);
            id in t.calls && t.calls[id].pc.Returned?
    decreases |rounds|
  {
    if rounds != [] {
      var t := Run(s, rounds[0]);
      RunKeepsInv(s, rounds[0]);
      RunNeverSetsBack(s, rounds[0], id);
      if !s.calls[id].pc.Returned? && !Moved(s, rounds[0], id) {
        TurnIsProgress(s, rounds[0], id);
      }
      EveryFairRunReturns(t, rounds[1..], id);
    }
  }

  /** From its deadline on a call always has a turn to take, and it keeps it until its place changes. */
  lemma OverdueHasTurn(s: State, id: ReqId)
    requires Inv(s) && id in s.calls && s.calls[id].deadline <= s.now && !s.calls[id].pc.Returned?
    ensures Enabled(s, NextFor(s, id)) && MovesOn(s.calls[id].pc, NextFor(s, id), id)
  {
  }
}
