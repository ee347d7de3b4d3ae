/**
 The RPC correlation protocol of internal/rpc/manager.go as a step machine.

 Every `Call`, `HandleResponse` and `CancelRequest` is its own thread of control; a step is
 one critical section, one channel operation or one context operation, so any order of steps
 is an interleaving the server can produce.
 */
module RpcProtocol {
  import opened Wrappers

  type ReqId = string

  /** Nanoseconds, as in Go's time.Duration. */
  const DEFAULT_TIMEOUT: int := 30_000_000_000

  // ---------------------------------------------------------------- responses

  datatype ErrorInfo = ErrorInfo(code: string, message: string)

  datatype Response = Response(reqID: ReqId, success: bool, payload: string, error: Option<ErrorInfo>)

  /** The three shapes `HandleResponse` tells apart. `Other` carries the outcome of the JSON round trip. */
  datatype RespData =
    | Typed(resp: Response)
    | Mapped(payload: Option<string>, success: Option<bool>)
    | Other(decoded: Option<Response>)

  function Convert(reqID: ReqId, data: RespData): Option<Response> {
    match data
    case Typed(resp) => Some(resp)
    case Mapped(payload, success) =>
      Some(Response(reqID,
                    if success.Some? then success.value else true,
                    if payload.Some? then payload.value else "",
                    None))
    case Other(decoded) => decoded
  }

  // ---------------------------------------------------------------- calls

  datatype Context = Live | DeadlineExceeded | Canceled

  datatype Outcome = Answered(resp: Response) | SendFailure | TimedOut | WasCancelled

  /**
   Where a `Call` stands. `Parked` is blocked in its select with neither case ready: the
   first sender hands its value over (`Received`), the first context event wakes it (`Woken`).
   */
  datatype Pc =
    | ContextMade
    | Stamped
    | Registered
    | SendFailed
    | Unregistered
    | AtSelect
    | Parked
    | Received(resp: Response)
    | Woken
    | Withdrawn
    | Returned(outcome: Outcome)

  /** One `Call` with the context and the capacity-1 channel that belong to it. */
  datatype Call = Call(pc: Pc, deviceID: string, methodName: string, timeout: int,
                       deadline: int, createdAt: int, ctx: Context, channel: Option<Response>)

  datatype PendingRequest = PendingRequest(deviceID: string, methodName: string, createdAt: int, timeout: int)

  function RecordOf(c: Call): PendingRequest {
    PendingRequest(c.deviceID, c.methodName, c.createdAt, c.timeout)
  }

  /** The first cancellation of a context wins; a parked caller is woken by it. */
  function Cancel(c: Call, why: Context): Call {
    if c.ctx != Live then c
    else c.(ctx := why, pc := if c.pc.Parked? then Woken else c.pc)
  }

  function CanSend(c: Call): bool {
    c.pc.Parked? || c.channel.None?
  }

  /** A channel send that does not block: to the parked receiver, else into the buffer. */
  function Send(c: Call, r: Response): Call
    requires CanSend(c)
  {
    if c.pc.Parked? then c.(pc := Received(r)) else c.(channel := Some(r))
  }

  /** The select of `Call`; `preferResponse` is Go's choice when both cases are ready. */
  function EnterSelect(c: Call, preferResponse: bool): Call {
    if c.channel.Some? && (c.ctx == Live || preferResponse) then
      c.(pc := Received(c.channel.value), channel := None)
    else if c.ctx != Live then c.(pc := Woken)
    else c.(pc := Parked)
  }

  predicate Expired(req: PendingRequest, now: int) {
    now - req.createdAt > req.timeout
  }

  // ---------------------------------------------------------------- handlers

  datatype HandleResult = Delivered | UnknownRequest | BadResponse | ChannelUnavailable

  datatype Stage = Took | Sent | Finished(result: HandleResult)

  /** One run of `HandleResponse`; finished runs are kept so that histories can be stated. */
  datatype Handler = Handler(reqID: ReqId, data: RespData, stage: Stage)

  /** One run of `CancelRequest`; `holding` between its unlock and its call of CancelFunc. */
  datatype Canceller = Canceller(reqID: ReqId, holding: bool)

  datatype State = State(now: int,
                         pending: map<ReqId, PendingRequest>,
                         calls: map<ReqId, Call>,
                         handlers: map<nat, Handler>,
                         cancellers: map<nat, Canceller>)

  // ---------------------------------------------------------------- steps

  datatype Step =
    | Tick(dt: nat)
      // Call
    | Begin(id: ReqId, deviceID: string, methodName: string, timeout: int)
    | Stamp(id: ReqId)
    | Register(id: ReqId)
    | SendOk(id: ReqId)
    | SendErr(id: ReqId)
    | Unregister(id: ReqId)
    | ReturnSendError(id: ReqId)
    | Select(id: ReqId, preferResponse: bool)
    | ReturnResponse(id: ReqId)
    | Withdraw(id: ReqId)
    | ReturnDone(id: ReqId)
      // the call's context
    | FireDeadline(id: ReqId)
    | ParentDone(id: ReqId, why: Context)
      // HandleResponse
    | TakeResponse(h: nat, id: ReqId, data: RespData)
    | SendResponse(h: nat)
    | CancelAfterSend(h: nat)
      // CancelRequest
    | TakeCancel(c: nat, id: ReqId)
    | CancelTaken(c: nat)
      // CleanupExpired
    | Cleanup

  predicate At(s: State, id: ReqId, pc: Pc) {
    id in s.calls && s.calls[id].pc == pc
  }

  predicate InStage(s: State, h: nat, stage: Stage) {
    h in s.handlers && s.handlers[h].stage == stage && s.handlers[h].reqID in s.calls
  }

  /** A step of one Call, or of the context that belongs to it. */
  predicate IsOwn(step: Step) {
    match step
    case Stamp(_) => true
    case Register(_) => true
    case SendOk(_) => true
    case SendErr(_) => true
    case Unregister(_) => true
    case ReturnSendError(_) => true
    case Select(_, _) => true
    case ReturnResponse(_) => true
    case Withdraw(_) => true
    case ReturnDone(_) => true
    case FireDeadline(_) => true
    case ParentDone(_, _) => true
    case _ => false
  }

  predicate OwnEnabled(c: Call, step: Step, now: int)
    requires IsOwn(step)
  {
    match step
    case Stamp(_) => c.pc.ContextMade?
    case Register(_) => c.pc.Stamped?
    case SendOk(_) => c.pc.Registered?
    case SendErr(_) => c.pc.Registered?
    case Unregister(_) => c.pc.SendFailed?
    case ReturnSendError(_) => c.pc.Unregistered?
    case Select(_, _) => c.pc.AtSelect?
    case ReturnResponse(_) => c.pc.Received?
    case Withdraw(_) => c.pc.Woken?
    case ReturnDone(_) => c.pc.Withdrawn?
    case FireDeadline(_) => c.ctx == Live && c.deadline <= now
    case ParentDone(_, why) => why != Live
  }

  function Own(c: Call, step: Step, now: int): Call
    requires IsOwn(step) && OwnEnabled(c, step, now)
  {
    match step
    case Stamp(_) => c.(pc := Stamped, createdAt := now)
    case Register(_) => c.(pc := Registered)
    case SendOk(_) => c.(pc := AtSelect)
    case SendErr(_) => c.(pc := SendFailed)
    case Unregister(_) => c.(pc := Unregistered)
    case ReturnSendError(_) => Cancel(c, Canceled).(pc := Returned(SendFailure))
    case Select(_, preferResponse) => EnterSelect(c, preferResponse)
    case ReturnResponse(_) => c.(pc := Returned(Answered(c.pc.resp)))
    case Withdraw(_) => c.(pc := Withdrawn)
    case ReturnDone(_) => c.(pc := Returned(if c.ctx == DeadlineExceeded then TimedOut else WasCancelled))
    case FireDeadline(_) => Cancel(c, DeadlineExceeded)
    case ParentDone(_, why) => Cancel(c, why)
  }

  predicate Enabled(s: State, step: Step) {
    if IsOwn(step) then step.id in s.calls && OwnEnabled(s.calls[step.id], step, s.now)
    else
      match step
      case Tick(_) => true
      case Begin(id, _, _, _) => id !in s.calls
      case TakeResponse(h, _, _) => h !in s.handlers
      case SendResponse(h) => InStage(s, h, Took)
      case CancelAfterSend(h) => InStage(s, h, Sent)
      case TakeCancel(c, _) => c !in s.cancellers
      case CancelTaken(c) => c in s.cancellers && s.cancellers[c].holding && s.cancellers[c].reqID in s.calls
      case _ => true
  }

  function WithCall(s: State, id: ReqId, c: Call): State {
    s.(calls := s.calls[id := c])
  }

  function WithStage(s: State, h: nat, stage: Stage): State
    requires h in s.handlers
  {
    s.(handlers := s.handlers[h := s.handlers[h].(stage := stage)])
  }

  function EffectiveTimeout(timeout: int): int {
    if timeout == 0 then DEFAULT_TIMEOUT else timeout
  }

  /** What a step of a call does to the pending map. */
  function PendingAfter(pending: map<ReqId, PendingRequest>, step: Step, c: Call): map<ReqId, PendingRequest> {
    match step
    case Register(id) => pending[id := RecordOf(c)]
    case Unregister(id) => Without(pending, id)
    case Withdraw(id) => Without(pending, id)
    case _ => pending
  }

  function Apply(s: State, step: Step): State
    requires Enabled(s, step)
  {
    if IsOwn(step) then
      var c := s.calls[step.id];
      WithCall(s, step.id, Own(c, step, s.now)).(pending := PendingAfter(s.pending, step, c))
    else
      match step
      case Tick(dt) => s.(now := s.now + dt)
      case Begin(id, deviceID, methodName, timeout) =>
        var t := EffectiveTimeout(timeout);
        WithCall(s, id, Call(ContextMade, deviceID, methodName, t, s.now + t, s.now, Live, None))
      case TakeResponse(h, id, data) => ApplyTake(s, h, id, data)
      case SendResponse(h) => ApplySend(s, h)
      case CancelAfterSend(h) =>
        var id := s.handlers[h].reqID;
        WithStage(WithCall(s, id, Cancel(s.calls[id], Canceled)), h, Finished(Delivered))
      case TakeCancel(c, id) =>
        s.(pending := Without(s.pending, id),
           cancellers := s.cancellers[c := Canceller(id, id in s.pending)])
      case CancelTaken(c) =>
        var id := s.cancellers[c].reqID;
        WithCall(s, id, Cancel(s.calls[id], Canceled))
          .(cancellers := s.cancellers[c := Canceller(id, false)])
      case _ =>
        s.(pending := Unexpired(s.pending, s.now), calls := CancelExpired(s.calls, s.pending, s.now))
  }

  /** The locked part of `HandleResponse`. */
  function ApplyTake(s: State, h: nat, id: ReqId, data: RespData): State {
    if id in s.pending then
      s.(pending := Without(s.pending, id), handlers := s.handlers[h := Handler(id, data, Took)])
    else
      s.(handlers := s.handlers[h := Handler(id, data, Finished(UnknownRequest))])
  }

  /** Conversion and the non-blocking channel send of `HandleResponse`. */
  function ApplySend(s: State, h: nat): State
    requires InStage(s, h, Took)
  {
    var id := s.handlers[h].reqID;
    var resp := Convert(id, s.handlers[h].data);
    if resp.None? then WithStage(s, h, Finished(BadResponse))
    else if CanSend(s.calls[id]) then WithStage(WithCall(s, id, Send(s.calls[id], resp.value)), h, Sent)
    else WithStage(s, h, Finished(ChannelUnavailable))
  }

  function Unexpired(pending: map<ReqId, PendingRequest>, now: int): map<ReqId, PendingRequest> {
    map id | id in pending && !Expired(pending[id], now) :: pending[id]
  }

  function CancelExpired(calls: map<ReqId, Call>, pending: map<ReqId, PendingRequest>, now: int): map<ReqId, Call> {
    map id | id in calls ::
      if id in pending && Expired(pending[id], now) then Cancel(calls[id], Canceled) else calls[id]
  }

  // ---------------------------------------------------------------- runs

  function Initial(now: int): State {
    State(now, map[], map[], map[], map[])
  }

  predicate CanRun(s: State, steps: seq<Step>)
    decreases |steps|
  {
    steps == [] || (Enabled(s, steps[0]) && CanRun(Apply(s, steps[0]), steps[1..]))
  }

  function Run(s: State, steps: seq<Step>): State
    requires CanRun(s, steps)
    decreases |steps|
  {
    if steps == [] then s else Run(Apply(s, steps[0]), steps[1..])
  }
}
