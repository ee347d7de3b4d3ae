/** How a Call ends, read off the run: which error it returns, by which deadline, and what frames reach it. */
module RpcOutcomes {
  import opened Wrappers
  import opened RpcProtocol
  import opened RpcInvariant
  import opened RpcTheorems
  import opened WsFrames

  // ---------------------------------------------------------------- the first end of a context

  /** What a step does to the context of `id` if that is still live; Live when it does nothing. */
  function EndOf(s: State, step: Step, id: ReqId): Context {
    match step
    case FireDeadline(k) => if k == id then DeadlineExceeded else Live
    case ParentDone(k, why) => if k == id then why else Live
    case ReturnSendError(k) => if k == id then Canceled else Live
    case CancelAfterSend(h) => if h in s.handlers && s.handlers[h].reqID == id then Canceled else Live
    case CancelTaken(c) => if c in s.cancellers && s.cancellers[c].reqID == id then Canceled else Live
    case Cleanup =>
      if id in s.pending && s.now - s.pending[id].createdAt > s.pending[id].timeout then Canceled else Live
    case _ => Live
  }

  /** How the context of `id` ends first in a run, Live when it does not. */
  function FirstEnd(s: State, steps: seq<Step>, id: ReqId): Context
    requires CanRun(s, steps)
    decreases |steps|
  {
    if steps == [] then Live
    else if EndOf(s, steps[0], id) != Live then EndOf(s, steps[0], id)
    else FirstEnd(Apply(s, steps[0]), steps[1..], id)
  }

  lemma StepEndsContext(s: State, step: Step, id: ReqId)
    requires Enabled(s, step) && id in s.calls
    ensures id in Apply(s, step).calls
    ensures Apply(s, step).calls[id].ctx == if s.calls[id].ctx != Live then s.calls[id].ctx else EndOf(s, step, id)
  {
  }

  /** A context that is not there yet is not ended, and is live when it is made. */
  lemma NoContextYet(s: State, step: Step, id: ReqId)
    requires Inv(s) && Enabled(s, step) && id !in s.calls
    ensures EndOf(s, step, id) == Live
    ensures id in Apply(s, step).calls ==> Apply(s, step).calls[id].ctx == Live
  {
  }

  /** A context is what ended it first, whatever came later. */
  lemma {:induction false} ContextIsFirstEnd(s: State, steps: seq<Step>, id: ReqId)
    requires Inv(s) && CanRun(s, steps) && id in Run(s, steps).calls
    ensures Run(s, steps).calls[id].ctx
            == if id in s.calls && s.calls[id].ctx != Live then s.calls[id].ctx else FirstEnd(s, steps, id)
    decreases |steps|
  {
    if steps != [] {
      StepKeepsInv(s, steps[0]);
      if id in s.calls {
        StepEndsContext(s, steps[0], id);
      } else {
        NoContextYet(s, steps[0], id);
      }
      ContextIsFirstEnd(Apply(s, steps[0]), steps[1..], id);
    }
  }

  // ---------------------------------------------------------------- which error

  /** On the way to returning the error of sendToDevice, or returned with it. */
  predicate SendWentWrong(pc: Pc) {
    pc.SendFailed? || pc.Unregistered? || pc == Returned(SendFailure)
  }

  lemma OwnSendWentWrong(c: Call, step: Step, id: ReqId, now: int)
    requires IsOwn(step) && step.id == id && OwnEnabled(c, step, now) && CallOk(c, now)
    ensures SendWentWrong(Own(c, step, now).pc) <==> SendWentWrong(c.pc) || step == SendErr(id)
  {
  }

  lemma TouchedSendWentWrong(c: Call, d: Call)
    requires Touched(c, d)
    ensures SendWentWrong(d.pc) <==> SendWentWrong(c.pc)
  {
  }

  lemma NewSendWentWrong(s: State, step: Step, id: ReqId)
    requires Enabled(s, step) && id !in s.calls && id in Apply(s, step).calls
    ensures !SendWentWrong(Apply(s, step).calls[id].pc) && step != SendErr(id)
  {
  }

  lemma StepSendWentWrong(s: State, step: Step, id: ReqId)
    requires Inv(s) && Enabled(s, step) && id in Apply(s, step).calls
    ensures SendWentWrong(Apply(s, step).calls[id].pc)
            <==> (id in s.calls && SendWentWrong(s.calls[id].pc)) || step == SendErr(id)
  {
    if id in s.calls {
      StepOnCall(s, step, id);
      if IsOwn(step) && step.id == id {
        assert CallOk(s.calls[id], s.now);
        OwnSendWentWrong(s.calls[id], step, id, s.now);
      } else {
        TouchedSendWentWrong(s.calls[id], Apply(s, step).calls[id]);
      }
    } else {
      NewSendWentWrong(s, step, id);
    }
  }

  lemma {:induction false} SendWentWrongIff(s: State, steps: seq<Step>, id: ReqId)
    requires Inv(s) && CanRun(s, steps) && id in Run(s, steps).calls
    ensures SendWentWrong(Run(s, steps).calls[id].pc)
            <==> (id in s.calls && SendWentWrong(s.calls[id].pc)) || SendErr(id) in steps
    decreases |steps|
  {
    if steps != [] {
      var t := Apply(s, steps[0]);
      StepKeepsInv(s, steps[0]);
      SendWentWrongIff(t, steps[1..], id);
      if id in t.calls {
        StepSendWentWrong(s, steps[0], id);
      } else {
        assert id !in s.calls && steps[0] != SendErr(id);
      }
      assert steps == [steps[0]] + steps[1..];
    }
  }

  /**
   In every run: a Call returns the send error exactly when its send has failed; it returns ErrTimeout only when the
   first end of its context was a deadline, and ErrCancelled only when that was a cancellation.
   */
  lemma ErrorIsFirstEnd(now: int, steps: seq<Step>, id: ReqId)
    requires CanRun(Initial(now), steps) && id in Run(Initial(now), steps).calls
    requires Run(Initial(now), steps).calls[id].pc.Returned?
    ensures var outcome := Run(Initial(now), steps).calls[id].pc.outcome;
            && (outcome == SendFailure <==> SendErr(id) in steps)
            && (outcome == TimedOut ==> FirstEnd(Initial(now), steps, id) == DeadlineExceeded)
            && (outcome == WasCancelled ==> FirstEnd(Initial(now), steps, id) == Canceled)
  {
    ReachableInv(now, steps);
    SendWentWrongIff(Initial(now), steps, id);
    ContextIsFirstEnd(Initial(now), steps, id);
    assert CallOk(Run(Initial(now), steps).calls[id], Run(Initial(now), steps).now);
  }

  /** A caller whom its context's end has woken, on its way, or back with the error that belongs to that end. */
  predicate BoundFor(c: Call, why: Context, error: Outcome) {
    c.ctx == why && (c.pc.Woken? || c.pc.Withdrawn? || c.pc == Returned(error))
  }

  lemma StepStaysBound(s: State, step: Step, id: ReqId, why: Context)
    requires Enabled(s, step) && id in s.calls && why != Live
    requires BoundFor(s.calls[id], why, if why == DeadlineExceeded then TimedOut else WasCancelled)
    ensures id in Apply(s, step).calls
    ensures BoundFor(Apply(s, step).calls[id], why, if why == DeadlineExceeded then TimedOut else WasCancelled)
  {
    StepOnCall(s, step, id);
  }

  lemma {:induction false} RunStaysBound(s: State, steps: seq<Step>, id: ReqId, why: Context)
    requires CanRun(s, steps) && id in s.calls && why != Live
    requires BoundFor(s.calls[id], why, if why == DeadlineExceeded then TimedOut else WasCancelled)
    ensures id in Run(s, steps).calls
    ensures BoundFor(Run(s, steps).calls[id], why, if why == DeadlineExceeded then TimedOut else WasCancelled)
    decreases |steps|
  {
    if steps != [] {
      StepStaysBound(s, steps[0], id, why);
      RunStaysBound(Apply(s, steps[0]), steps[1..], id, why);
    }
  }

  /**
   A caller that has been woken or has withdrawn returns, in every continuation in which it returns, ErrTimeout if the
   first end of its context was a deadline, and ErrCancelled if not.
   */
  lemma WokenReturnsByFirstEnd(now: int, steps: seq<Step>, later: seq<Step>, id: ReqId)
    requires CanRun(Initial(now), steps) && CanRun(Run(Initial(now), steps), later)
    requires At(Run(Initial(now), steps), id, Woken) || At(Run(Initial(now), steps), id, Withdrawn)
    ensures var end := Run(Run(Initial(now), steps), later);
            id in end.calls
            && (end.calls[id].pc.Returned? ==>
                  (end.calls[id].pc.outcome == TimedOut <==> FirstEnd(Initial(now), steps, id) == DeadlineExceeded)
                  && (end.calls[id].pc.outcome == WasCancelled <==> FirstEnd(Initial(now), steps, id) == Canceled))
  {
    var s := Run(Initial(now), steps);
    ReachableInv(now, steps);
    ContextIsFirstEnd(Initial(now), steps, id);
    assert CallOk(s.calls[id], s.now);
    RunStaysBound(s, later, id, s.calls[id].ctx);
  }

  /** A parked caller whose device stays silent until its deadline fires returns ErrTimeout in every continuation. */
  lemma SilentDeviceTimesOut(s: State, later: seq<Step>, id: ReqId)
    requires Inv(s) && At(s, id, Parked) && s.calls[id].deadline <= s.now
    ensures Enabled(s, FireDeadline(id))
    ensures CanRun(Apply(s, FireDeadline(id)), later) ==>
              var end := Run(Apply(s, FireDeadline(id)), later);
              id in end.calls && (end.calls[id].pc.Returned? ==> end.calls[id].pc == Returned(TimedOut))
  {
    assert CallOk(s.calls[id], s.now);
    if CanRun(Apply(s, FireDeadline(id)), later) {
      RunStaysBound(Apply(s, FireDeadline(id)), later, id, DeadlineExceeded);
    }
  }

  // ---------------------------------------------------------------- what a call was asked for

  /** What stays of a call from its beginning on. */
  predicate AskedFor(c: Call, deviceID: string, methodName: string, timeout: int, deadline: int) {
    c.deviceID == deviceID && c.methodName == methodName && c.timeout == timeout && c.deadline == deadline
  }

  lemma {:induction false} AskedForStays(s: State, steps: seq<Step>, id: ReqId, deviceID: string, methodName: string,
                                         timeout: int, deadline: int)
    requires CanRun(s, steps) && id in s.calls && AskedFor(s.calls[id], deviceID, methodName, timeout, deadline)
    ensures id in Run(s, steps).calls
    ensures AskedFor(Run(s, steps).calls[id], deviceID, methodName, timeout, deadline)
    decreases |steps|
  {
    if steps != [] {
      StepOnCall(s, steps[0], id);
      AskedForStays(Apply(s, steps[0]), steps[1..], id, deviceID, methodName, timeout, deadline);
    }
  }

  /**
   A call's deadline is the time of its beginning plus the timeout asked for, 30 s when that is 0; and a pending
   record names the device, the method and the timeout of its call.
   */
  lemma DeadlineIsAsked(s: State, id: ReqId, deviceID: string, methodName: string, timeout: int, later: seq<Step>)
    requires Inv(s) && id !in s.calls && CanRun(Apply(s, Begin(id, deviceID, methodName, timeout)), later)
    ensures var end := Run(Apply(s, Begin(id, deviceID, methodName, timeout)), later);
            var effective := if timeout == 0 then 30_000_000_000 else timeout;
            && id in end.calls && end.calls[id].deadline == s.now + effective
            && (id in end.pending ==>
                  end.pending[id] == PendingRequest(deviceID, methodName, end.calls[id].createdAt, effective))
  {
    var t := Apply(s, Begin(id, deviceID, methodName, timeout));
    var effective := if timeout == 0 then 30_000_000_000 else timeout;
    StepKeepsInv(s, Begin(id, deviceID, methodName, timeout));
    RunKeepsInv(t, later);
    AskedForStays(t, later, id, deviceID, methodName, effective, s.now + effective);
  }

  /** A deadline never fires before the time and timeout of its call's beginning have it. */
  lemma DeadlineFiresInTime(s: State, id: ReqId, deviceID: string, methodName: string, timeout: int, later: seq<Step>)
    requires Inv(s) && id !in s.calls && CanRun(Apply(s, Begin(id, deviceID, methodName, timeout)), later)
    requires Enabled(Run(Apply(s, Begin(id, deviceID, methodName, timeout)), later), FireDeadline(id))
    ensures var now := Run(Apply(s, Begin(id, deviceID, methodName, timeout)), later).now;
            s.now + (if timeout == 0 then 30_000_000_000 else timeout) <= now
  {
    DeadlineIsAsked(s, id, deviceID, methodName, timeout, later);
  }

  /** A call's CreatedAt is the time at which it was read, from then on. */
  lemma {:induction false} CreatedAtStays(s: State, steps: seq<Step>, id: ReqId)
    requires Inv(s) && CanRun(s, steps) && id in s.calls && !s.calls[id].pc.ContextMade?
    ensures id in Run(s, steps).calls && Run(s, steps).calls[id].createdAt == s.calls[id].createdAt
    decreases |steps|
  {
    if steps != [] {
      StepOnCall(s, steps[0], id);
      StepKeepsInv(s, steps[0]);
      CreatedAtStays(Apply(s, steps[0]), steps[1..], id);
    }
  }

  lemma StampedNow(s: State, id: ReqId, later: seq<Step>)
    requires Inv(s) && Enabled(s, Stamp(id)) && CanRun(Apply(s, Stamp(id)), later)
    ensures var end := Run(Apply(s, Stamp(id)), later); id in end.calls && end.calls[id].createdAt == s.now
  {
    StepKeepsInv(s, Stamp(id));
    CreatedAtStays(Apply(s, Stamp(id)), later, id);
  }

  /** With a response in the channel and the context done, the select may take either. */
  lemma SelectMayTakeEither(s: State, id: ReqId, r: Response)
    requires At(s, id, AtSelect) && s.calls[id].channel == Some(r)
    ensures At(Apply(s, Select(id, true)), id, Received(r))
    ensures s.calls[id].ctx != Live ==> At(Apply(s, Select(id, false)), id, Woken)
  {
  }

  // ---------------------------------------------------------------- what reaches a call

  /** An authenticated connection's responses and errors are passed on, payload and all, and nothing else is. */
  lemma PassedOnExactly(f: Frame)
    ensures HandleMessage(f).Some?
            <==> f.deviceID != ""
                 && f.kind in {ListResp, DeleteResp, ZipResp, CompressResp, UploadResp, FileInfoResp, MessageType.Error}
    ensures HandleMessage(f).Some? ==>
              Convert(f.reqID, HandleMessage(f).value)
              == Some(Response(f.reqID, f.kind != MessageType.Error, f.payload, None))
  {
  }

  /** A response that is one already is kept; a map without a success entry counts as a success. */
  lemma OtherShapesConvert(reqID: ReqId, resp: Response, payload: Option<string>)
    ensures Convert(reqID, Typed(resp)) == Some(resp)
    ensures Convert(reqID, Other(Some(resp))) == Some(resp) && Convert(reqID, Other(None)) == None
    ensures Convert(reqID, Mapped(payload, None)) == Convert(reqID, Mapped(payload, Some(true)))
  {
  }
}
