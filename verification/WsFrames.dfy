/** The frames of internal/ws that reach `HandleResponse` (internal/ws/manager.go, types.go). */
module WsFrames {
  import opened Wrappers
  import opened RpcProtocol

  datatype MessageType =
    | Hello | HelloAck | Heartbeat | Progress | Error
    | ListReq | DeleteReq | ZipReq | CompressReq | UploadReq | FileInfoReq
    | ListResp | DeleteResp | ZipResp | CompressResp | UploadResp | FileInfoResp
    | Unlisted(name: string)

  /** An envelope together with the device id its connection has authenticated as, "" before hello. */
  datatype Frame = Frame(deviceID: string, kind: MessageType, reqID: ReqId, payload: string)

  predicate IsRpcResponse(kind: MessageType) {
    kind.ListResp? || kind.DeleteResp? || kind.ZipResp? || kind.CompressResp? || kind.UploadResp? || kind.FileInfoResp?
  }

  /** What `handleMessage` passes on to the RPC manager for a frame, if anything. */
  function HandleMessage(f: Frame): Option<RespData> {
    if IsRpcResponse(f.kind) then
      if f.deviceID == "" then None else Some(Mapped(Some(f.payload), Some(true)))
    else if f.kind.Error? then
      if f.deviceID == "" then None else Some(Mapped(Some(f.payload), Some(false)))
    else None
  }

  /** Every `HandleResponse` of the run was started for one of these frames. */
  ghost predicate FromFrames(steps: seq<Step>, frames: set<Frame>) {
    forall i :: 0 <= i < |steps| && steps[i].TakeResponse? ==> FromFrame(steps[i].id, steps[i].data, frames)
  }

  ghost predicate FromFrame(id: ReqId, data: RespData, frames: set<Frame>) {
    exists f :: f in frames && f.reqID == id && HandleMessage(f) == Some(data)
  }

  ghost predicate HandlersFromFrames(s: State, frames: set<Frame>) {
    forall h :: h in s.handlers ==> FromFrame(s.handlers[h].reqID, s.handlers[h].data, frames)
  }

  /** No handler that was started for a frame fails to convert it. */
  ghost predicate NothingLost(s: State) {
    forall h :: h in s.handlers ==> s.handlers[h].stage != Finished(BadResponse)
  }

  lemma {:induction false} HandlersComeFromFrames(s: State, steps: seq<Step>, frames: set<Frame>)
    requires CanRun(s, steps) && FromFrames(steps, frames)
    requires HandlersFromFrames(s, frames) && NothingLost(s)
    ensures HandlersFromFrames(Run(s, steps), frames) && NothingLost(Run(s, steps))
    decreases |steps|
  {
    if steps != [] {
      var t := Apply(s, steps[0]);
      assert FromFrames(steps[1..], frames) by {
        forall i | 0 <= i < |steps[1..]| && steps[1..][i].TakeResponse?
          ensures FromFrame(steps[1..][i].id, steps[1..][i].data, frames) {
          assert steps[1..][i] == steps[i + 1];
        }
      }
      forall h | h in t.handlers
        ensures FromFrame(t.handlers[h].reqID, t.handlers[h].data, frames)
        ensures t.handlers[h].stage != Finished(BadResponse)
      {
        if h in s.handlers {
          assert FromFrame(s.handlers[h].reqID, s.handlers[h].data, frames);
        } else {
          assert steps[0].TakeResponse?;
        }
      }
      HandlersComeFromFrames(t, steps[1..], frames);
    }
  }
}
