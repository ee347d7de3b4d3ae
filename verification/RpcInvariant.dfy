/** The inductive invariant of the RPC protocol and its preservation by every step. */
module RpcInvariant {
  import opened Wrappers
  import opened RpcProtocol

  /** A call in one of these places may still be in the pending map. */
  predicate Pendable(pc: Pc) {
    pc.Registered? || pc.SendFailed? || pc.AtSelect? || pc.Parked? || pc.Woken?
  }

  predicate BeforeRegistration(pc: Pc) {
    pc.ContextMade? || pc.Stamped?
  }

  /** The call has been registered and still expects to pass, or sits in, its select. */
  predicate Waiting(pc: Pc) {
    pc.Registered? || pc.AtSelect? || pc.Parked?
  }

  /** The response that has reached a call: in its channel, taken from it, or returned. */
  function Answer(c: Call): Option<Response> {
    match c.pc
    case Received(r) => Some(r)
    case Returned(Answered(r)) => Some(r)
    case _ => c.channel
  }

  /** What holds of one call on its own. */
  predicate CallOk(c: Call, now: int) {
    && (c.pc.Parked? ==> c.ctx == Live && c.channel.None?)
    && (c.pc.Woken? || c.pc.Withdrawn? ==> c.ctx != Live)
    && (c.pc == Returned(TimedOut) ==> c.ctx == DeadlineExceeded)
    && (c.pc == Returned(WasCancelled) ==> c.ctx == Canceled)
    && (c.pc.Received? || (c.pc.Returned? && c.pc.outcome.Answered?) ==> c.channel.None?)
    && (BeforeRegistration(c.pc) ==> c.channel.None?)
    && c.createdAt <= now
    && c.deadline <= c.createdAt + c.timeout
  }

  /** The handler found its request in the pending map and removed it. */
  predicate TookRequest(h: Handler) {
    h.stage != Finished(UnknownRequest)
  }

  /** The handler put its converted response into the call's channel. */
  predicate DeliveredIt(h: Handler) {
    h.stage == Sent || h.stage == Finished(Delivered)
  }

  ghost predicate AnswerFrom(s: State, id: ReqId, r: Response) {
    exists h :: h in s.handlers && s.handlers[h].reqID == id && DeliveredIt(s.handlers[h])
                && Convert(id, s.handlers[h].data) == Some(r)
  }

  ghost predicate ResponseOnItsWay(s: State, id: ReqId) {
    exists h :: h in s.handlers && s.handlers[h].reqID == id && s.handlers[h].stage == Took
  }

  ghost predicate CancelOnItsWay(s: State, id: ReqId) {
    exists c :: c in s.cancellers && s.cancellers[c].reqID == id && s.cancellers[c].holding
  }

  /** Some handler took the request and then failed to convert what it had been given. */
  ghost predicate ResponseLost(s: State, id: ReqId) {
    exists h :: h in s.handlers && s.handlers[h].reqID == id && s.handlers[h].stage == Finished(BadResponse)
  }

  ghost predicate Rescued(s: State, id: ReqId)
  {
    ResponseOnItsWay(s, id) || CancelOnItsWay(s, id) || ResponseLost(s, id)
  }

  ghost predicate PendingInv(s: State) {
    forall id :: id in s.pending ==>
      id in s.calls && Pendable(s.calls[id].pc) && s.calls[id].channel.None? && s.pending[id] == RecordOf(s.calls[id])
  }

  ghost predicate CallInv(s: State) {
    forall id :: id in s.calls ==> CallOk(s.calls[id], s.now)
  }

  ghost predicate AnswerInv(s: State) {
    forall id :: id in s.calls && Answer(s.calls[id]).Some? ==> AnswerFrom(s, id, Answer(s.calls[id]).value)
  }

  predicate HandlerOk(s: State, h: Handler) {
    && h.stage != Finished(ChannelUnavailable)
    && (TookRequest(h) ==>
          h.reqID in s.calls && h.reqID !in s.pending && !BeforeRegistration(s.calls[h.reqID].pc))
    && (h.stage == Took ==> Answer(s.calls[h.reqID]).None?)
  }

  ghost predicate HandlerInv(s: State) {
    forall h :: h in s.handlers ==> HandlerOk(s, s.handlers[h])
  }

  ghost predicate TakenOnce(s: State) {
    forall h, k :: h in s.handlers && k in s.handlers && h != k
                   && TookRequest(s.handlers[h]) && TookRequest(s.handlers[k])
                   ==> s.handlers[h].reqID != s.handlers[k].reqID
  }

  ghost predicate CancellerInv(s: State) {
    forall c :: c in s.cancellers && s.cancellers[c].holding ==> s.cancellers[c].reqID in s.calls
  }

  ghost predicate NotStranded(s: State, id: ReqId)
    requires id in s.calls
  {
    Waiting(s.calls[id].pc) && id !in s.pending ==>
      s.calls[id].ctx != Live || s.calls[id].channel.Some? || Rescued(s, id)
  }

  ghost predicate StrandInv(s: State) {
    forall id :: id in s.calls ==> NotStranded(s, id)
  }

  ghost predicate Inv(s: State) {
    && PendingInv(s)
    && CallInv(s)
    && AnswerInv(s)
    && HandlerInv(s)
    && TakenOnce(s)
    && CancellerInv(s)
    && StrandInv(s)
  }

  // ---------------------------------------------------------------- preservation

  /** An own step that leaves the pending map alone. */
  predicate OwnStep(step: Step) {
    IsOwn(step) && !step.Register? && !step.Unregister? && !step.Withdraw?
  }

  /** A change of one call that leaves its answer and its way out of the select alone. */
  predicate HarmlessChange(before: Call, after: Call, pending: bool, now: int) {
    && CallOk(after, now) && Answer(after) == Answer(before)
    && (pending ==> Pendable(after.pc) && after.channel.None? && RecordOf(after) == RecordOf(before))
    && (BeforeRegistration(after.pc) ==> BeforeRegistration(before.pc))
    && (Waiting(after.pc) && !pending ==>
          Waiting(before.pc) && (before.ctx != Live ==> after.ctx != Live)
          && (before.channel.Some? ==> after.channel.Some? || after.ctx != Live))
  }

  lemma CallStepKeepsInv(s: State, id: ReqId, c: Call)
    requires Inv(s) && id in s.calls
    requires HarmlessChange(s.calls[id], c, id in s.pending, s.now)
    ensures Inv(WithCall(s, id, c))
  {
    var t := WithCall(s, id, c);
    RescueCarriesOver(s, t);
    forall k | k in t.calls ensures NotStranded(t, k) {
      assert NotStranded(s, k);
    }
  }

  lemma OwnStepIsHarmless(c: Call, step: Step, now: int, pending: bool)
    requires OwnStep(step) && OwnEnabled(c, step, now) && CallOk(c, now)
    requires pending ==> Pendable(c.pc) && c.channel.None?
    ensures HarmlessChange(c, Own(c, step, now), pending, now)
  {
  }

  /** Moving the clock forward. */
  lemma TickKeepsInv(s: State, dt: nat)
    requires Inv(s)
    ensures Inv(Apply(s, Tick(dt)))
  {
    var t := Apply(s, Tick(dt));
    RescueCarriesOver(s, t);
  }

  /** When handlers and cancellers are untouched, so are rescues and provenance of answers. */
  lemma RescueCarriesOver(s: State, t: State)
    requires s.handlers == t.handlers && s.cancellers == t.cancellers
    ensures forall id :: Rescued(s, id) ==> Rescued(t, id)
    ensures forall id, r :: AnswerFrom(s, id, r) ==> AnswerFrom(t, id, r)
  {
  }

  lemma BeginKeepsInv(s: State, step: Step)
    requires Inv(s) && step.Begin? && Enabled(s, step)
    ensures Inv(Apply(s, step))
  {
    RescueCarriesOver(s, Apply(s, step));
  }

  /** Registration puts the id into the pending map for the first time. */
  lemma RegisterKeepsInv(s: State, id: ReqId)
    requires Inv(s) && Enabled(s, Register(id))
    ensures Inv(Apply(s, Register(id)))
  {
    var c := s.calls[id];
    var t := WithCall(s, id, c.(pc := Registered)).(pending := s.pending[id := RecordOf(c)]);
    assert Apply(s, Register(id)) == t;
    assert CallOk(c, s.now);
    RescueCarriesOver(s, t);
    forall h | h in t.handlers ensures HandlerOk(t, t.handlers[h]) {
      assert HandlerOk(s, s.handlers[h]);
    }
    forall k | k in t.calls ensures NotStranded(t, k) {
      assert NotStranded(s, k);
    }
  }

  /** A caller takes its own id out of the pending map, on the way to an error return. */
  lemma LeaveWithKeepsInv(s: State, id: ReqId, c: Call)
    requires Inv(s) && id in s.calls && CallOk(c, s.now) && Answer(c) == Answer(s.calls[id])
    requires !Waiting(c.pc) && !BeforeRegistration(c.pc)
    ensures Inv(WithCall(s, id, c).(pending := Without(s.pending, id)))
  {
    var t := WithCall(s, id, c).(pending := Without(s.pending, id));
    RescueCarriesOver(s, t);
    forall k | k in t.calls ensures NotStranded(t, k) {
      assert NotStranded(s, k);
    }
    forall h | h in t.handlers ensures HandlerOk(t, t.handlers[h]) {
      assert HandlerOk(s, s.handlers[h]);
    }
  }

  lemma LeaveKeepsInv(s: State, step: Step)
    requires Inv(s) && (step.Unregister? || step.Withdraw?) && Enabled(s, step)
    ensures Inv(Apply(s, step))
  {
    assert CallOk(s.calls[step.id], s.now);
    LeaveWithKeepsInv(s, step.id, Own(s.calls[step.id], step, s.now));
  }

  /** Steps that change one call only. */
  lemma OwnStepKeepsInv(s: State, step: Step)
    requires Inv(s) && Enabled(s, step)
    requires OwnStep(step)
    ensures Inv(Apply(s, step))
  {
    var c := s.calls[step.id];
    assert CallOk(c, s.now);
    OwnStepIsHarmless(c, step, s.now, step.id in s.pending);
    CallStepKeepsInv(s, step.id, Own(c, step, s.now));
  }

  /** A handler that found nothing pending, or begins to hold what it took, disturbs no rescue or answer. */
  lemma NewHandlerCarriesOver(s: State, t: State, h: nat)
    requires h !in s.handlers && t.cancellers == s.cancellers
    requires h in t.handlers && t.handlers == s.handlers[h := t.handlers[h]]
    ensures forall id :: Rescued(s, id) ==> Rescued(t, id)
    ensures forall id, r :: AnswerFrom(s, id, r) ==> AnswerFrom(t, id, r)
  {
    forall k | k in s.handlers ensures k in t.handlers && t.handlers[k] == s.handlers[k] {}
  }

  lemma FoundNothingKeepsInv(s: State, h: nat, id: ReqId, data: RespData)
    requires Inv(s) && h !in s.handlers
    ensures Inv(s.(handlers := s.handlers[h := Handler(id, data, Finished(UnknownRequest))]))
  {
    var t := s.(handlers := s.handlers[h := Handler(id, data, Finished(UnknownRequest))]);
    NewHandlerCarriesOver(s, t, h);
    forall k | k in t.calls ensures NotStranded(t, k) {
      assert NotStranded(s, k);
    }
    forall k | k in t.handlers ensures HandlerOk(t, t.handlers[k]) {
      assert k != h ==> HandlerOk(s, s.handlers[k]);
    }
  }

  lemma TookItKeepsInv(s: State, h: nat, id: ReqId, data: RespData)
    requires Inv(s) && h !in s.handlers && id in s.pending
    ensures Inv(s.(pending := Without(s.pending, id), handlers := s.handlers[h := Handler(id, data, Took)]))
  {
    var t := s.(pending := Without(s.pending, id), handlers := s.handlers[h := Handler(id, data, Took)]);
    NewHandlerCarriesOver(s, t, h);
    assert t.handlers[h].stage == Took && t.handlers[h].reqID == id;
    assert ResponseOnItsWay(t, id);
    forall k | k in t.calls ensures NotStranded(t, k) {
      assert NotStranded(s, k);
    }
    forall k | k in t.handlers ensures HandlerOk(t, t.handlers[k]) {
      assert k != h ==> HandlerOk(s, s.handlers[k]);
    }
  }

  lemma TakeKeepsInv(s: State, h: nat, id: ReqId, data: RespData)
    requires Inv(s) && Enabled(s, TakeResponse(h, id, data))
    ensures Inv(ApplyTake(s, h, id, data))
  {
    if id in s.pending {
      TookItKeepsInv(s, h, id, data);
    } else {
      FoundNothingKeepsInv(s, h, id, data);
    }
  }

  /** Going on to a later stage loses no rescue but the one the handler itself stood for. */
  lemma StageCarriesOver(s: State, t: State, h: nat)
    requires h in s.handlers && t.cancellers == s.cancellers
    requires h in t.handlers && t.handlers == s.handlers[h := s.handlers[h].(stage := t.handlers[h].stage)]
    ensures forall id :: id != s.handlers[h].reqID && Rescued(s, id) ==> Rescued(t, id)
    ensures (DeliveredIt(s.handlers[h]) ==> DeliveredIt(t.handlers[h])) ==>
              forall id, r :: AnswerFrom(s, id, r) ==> AnswerFrom(t, id, r)
  {
    forall k | k in s.handlers && k != h ensures k in t.handlers && t.handlers[k] == s.handlers[k] {}
  }

  /** In a reachable state the channel of a taken request is free: the send cannot fail. */
  lemma TakenCanSend(s: State, h: nat)
    requires Inv(s) && InStage(s, h, Took)
    ensures CanSend(s.calls[s.handlers[h].reqID])
  {
  }

  lemma BadSendKeepsInv(s: State, h: nat)
    requires Inv(s) && InStage(s, h, Took) && Convert(s.handlers[h].reqID, s.handlers[h].data).None?
    ensures Inv(WithStage(s, h, Finished(BadResponse)))
  {
    var t := WithStage(s, h, Finished(BadResponse));
    StageCarriesOver(s, t, h);
    assert t.handlers[h].stage == Finished(BadResponse) && t.handlers[h].reqID == s.handlers[h].reqID;
    assert ResponseLost(t, s.handlers[h].reqID);
    forall k | k in t.calls ensures NotStranded(t, k) {
      assert NotStranded(s, k);
    }
    forall k | k in t.handlers ensures HandlerOk(t, t.handlers[k]) {
      assert HandlerOk(s, s.handlers[k]);
    }
  }

  /** No other handler holds the request that `h` took. */
  lemma SendKeepsHandlers(s: State, h: nat, r: Response)
    requires Inv(s) && InStage(s, h, Took) && CanSend(s.calls[s.handlers[h].reqID])
    ensures var t := WithStage(WithCall(s, s.handlers[h].reqID, Send(s.calls[s.handlers[h].reqID], r)), h, Sent);
            HandlerInv(t) && TakenOnce(t)
  {
    var id := s.handlers[h].reqID;
    var t := WithStage(WithCall(s, id, Send(s.calls[id], r)), h, Sent);
    forall k | k in t.handlers ensures HandlerOk(t, t.handlers[k]) {
      assert HandlerOk(s, s.handlers[k]);
    }
  }

  lemma GoodSendKeepsInv(s: State, h: nat, r: Response)
    requires Inv(s) && InStage(s, h, Took) && CanSend(s.calls[s.handlers[h].reqID])
    requires Convert(s.handlers[h].reqID, s.handlers[h].data) == Some(r)
    ensures Inv(WithStage(WithCall(s, s.handlers[h].reqID, Send(s.calls[s.handlers[h].reqID], r)), h, Sent))
  {
    var id := s.handlers[h].reqID;
    var t := WithStage(WithCall(s, id, Send(s.calls[id], r)), h, Sent);
    assert HandlerOk(s, s.handlers[h]) && CallOk(s.calls[id], s.now);
    SendKeepsHandlers(s, h, r);
    StageCarriesOver(s, t, h);
    assert AnswerFrom(t, id, r) by { assert t.handlers[h] == s.handlers[h].(stage := Sent); }
    forall k | k in t.calls ensures CallOk(t.calls[k], t.now) && NotStranded(t, k) {
      assert CallOk(s.calls[k], s.now) && NotStranded(s, k);
    }
    forall k | k in t.calls && Answer(t.calls[k]).Some? ensures AnswerFrom(t, k, Answer(t.calls[k]).value) {
      assert k != id ==> AnswerFrom(s, k, Answer(s.calls[k]).value);
    }
  }

  lemma SendKeepsInv(s: State, h: nat)
    requires Inv(s) && Enabled(s, SendResponse(h))
    ensures Inv(Apply(s, SendResponse(h)))
  {
    TakenCanSend(s, h);
    var resp := Convert(s.handlers[h].reqID, s.handlers[h].data);
    if resp.Some? {
      GoodSendKeepsInv(s, h, resp.value);
    } else {
      BadSendKeepsInv(s, h);
    }
  }

  /** The handler's last step, once its CancelFunc has been called. */
  lemma HandlerDoneKeepsInv(s: State, h: nat)
    requires Inv(s) && InStage(s, h, Sent)
    ensures Inv(WithStage(s, h, Finished(Delivered)))
  {
    var t := WithStage(s, h, Finished(Delivered));
    StageCarriesOver(s, t, h);
    forall k | k in t.calls ensures NotStranded(t, k) {
      assert NotStranded(s, k);
    }
    forall k | k in t.handlers ensures HandlerOk(t, t.handlers[k]) {
      assert HandlerOk(s, s.handlers[k]);
    }
  }

  /** Cancelling a context at any time. */
  lemma CancelKeepsInv(s: State, id: ReqId)
    requires Inv(s) && id in s.calls
    ensures Inv(WithCall(s, id, Cancel(s.calls[id], Canceled)))
  {
    assert CallOk(s.calls[id], s.now);
    CallStepKeepsInv(s, id, Cancel(s.calls[id], Canceled));
  }

  lemma CancelAfterSendKeepsInv(s: State, h: nat)
    requires Inv(s) && Enabled(s, CancelAfterSend(h))
    ensures Inv(Apply(s, CancelAfterSend(h)))
  {
    var id := s.handlers[h].reqID;
    CancelKeepsInv(s, id);
    HandlerDoneKeepsInv(WithCall(s, id, Cancel(s.calls[id], Canceled)), h);
  }

  lemma TakeCancelKeepsInv(s: State, c: nat, id: ReqId)
    requires Inv(s) && Enabled(s, TakeCancel(c, id))
    ensures Inv(Apply(s, TakeCancel(c, id)))
  {
    var t := Apply(s, TakeCancel(c, id));
    forall k | k in s.cancellers ensures k in t.cancellers && t.cancellers[k] == s.cancellers[k] {}
    if id in s.pending {
      assert t.cancellers[c].holding;
      assert CancelOnItsWay(t, id);
    }
    forall k | k in t.calls ensures NotStranded(t, k) {
      assert NotStranded(s, k);
      assert Rescued(s, k) ==> Rescued(t, k);
    }
    forall k | k in t.handlers ensures HandlerOk(t, t.handlers[k]) {
      assert HandlerOk(s, s.handlers[k]);
    }
  }

  /** The canceller's last step, once its CancelFunc has been called. */
  lemma CancellerDoneKeepsInv(s: State, c: nat)
    requires Inv(s) && c in s.cancellers && s.cancellers[c].reqID in s.calls
    requires s.calls[s.cancellers[c].reqID].ctx != Live
    ensures Inv(s.(cancellers := s.cancellers[c := Canceller(s.cancellers[c].reqID, false)]))
  {
    var id := s.cancellers[c].reqID;
    var t := s.(cancellers := s.cancellers[c := Canceller(id, false)]);
    forall k | k in s.cancellers && k != c ensures k in t.cancellers && t.cancellers[k] == s.cancellers[k] {}
    forall k | k in t.calls ensures NotStranded(t, k) {
      assert NotStranded(s, k);
      assert k != id && Rescued(s, k) ==> Rescued(t, k);
    }
    forall k | k in t.calls && Answer(t.calls[k]).Some? ensures AnswerFrom(t, k, Answer(t.calls[k]).value) {
      assert AnswerFrom(s, k, Answer(s.calls[k]).value);
    }
  }

  lemma CancelTakenKeepsInv(s: State, c: nat)
    requires Inv(s) && Enabled(s, CancelTaken(c))
    ensures Inv(Apply(s, CancelTaken(c)))
  {
    var id := s.cancellers[c].reqID;
    CancelKeepsInv(s, id);
    CancellerDoneKeepsInv(WithCall(s, id, Cancel(s.calls[id], Canceled)), c);
  }

  lemma CleanupKeepsInv(s: State)
    requires Inv(s)
    ensures Inv(Apply(s, Cleanup))
  {
    var t := Apply(s, Cleanup);
    RescueCarriesOver(s, t);
    forall k | k in t.calls ensures CallOk(t.calls[k], t.now) && NotStranded(t, k) {
      assert CallOk(s.calls[k], s.now) && NotStranded(s, k);
    }
    forall k | k in t.handlers ensures HandlerOk(t, t.handlers[k]) {
      assert HandlerOk(s, s.handlers[k]);
    }
    forall k | k in t.calls && Answer(t.calls[k]).Some? ensures AnswerFrom(t, k, Answer(t.calls[k]).value) {
      assert AnswerFrom(s, k, Answer(s.calls[k]).value);
    }
  }

  /** Every step of every thread keeps the invariant. */
  lemma StepKeepsInv(s: State, step: Step)
    requires Inv(s) && Enabled(s, step)
    ensures Inv(Apply(s, step))
  {
    match step
    case Tick(dt) => TickKeepsInv(s, dt);
    case Begin(_, _, _, _) => BeginKeepsInv(s, step);
    case Register(id) => RegisterKeepsInv(s, id);
    case Unregister(_) => LeaveKeepsInv(s, step);
    case Withdraw(_) => LeaveKeepsInv(s, step);
    case TakeResponse(h, id, data) => TakeKeepsInv(s, h, id, data);
    case SendResponse(h) => SendKeepsInv(s, h);
    case CancelAfterSend(h) => CancelAfterSendKeepsInv(s, h);
    case TakeCancel(c, id) => TakeCancelKeepsInv(s, c, id);
    case CancelTaken(c) => CancelTakenKeepsInv(s, c);
    case Cleanup => CleanupKeepsInv(s);
    case _ => OwnStepKeepsInv(s, step);
  }

  /** Over every run, from any state in which it holds. */
  lemma {:induction false} RunKeepsInv(s: State, steps: seq<Step>)
    requires Inv(s) && CanRun(s, steps)
    ensures Inv(Run(s, steps))
    decreases |steps|
  {
    if steps != [] {
      StepKeepsInv(s, steps[0]);
      RunKeepsInv(Apply(s, steps[0]), steps[1..]);
    }
  }
}
