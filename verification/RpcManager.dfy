/** The RPC manager as the object it is in Go: a pending map, and the channels and contexts its requests point to. */
module RpcManager {
  import opened Wrappers
  import opened RpcProtocol
  import opened RpcInvariant

  /** One whole run of `HandleResponse` with no other thread in between. */
  function WholeResponse(s: State, h: nat, id: ReqId, data: RespData): State
    requires h !in s.handlers && s.pending.Keys <= s.calls.Keys
  {
    var taken := Apply(s, TakeResponse(h, id, data));
    if taken.handlers[h].stage != Took then taken
    else
      var sent := Apply(taken, SendResponse(h));
      if sent.handlers[h].stage != Sent then sent else Apply(sent, CancelAfterSend(h))
  }

  /** One whole run of `CancelRequest` with no other thread in between. */
  function WholeCancel(s: State, c: nat, id: ReqId): State
    requires c !in s.cancellers && s.pending.Keys <= s.calls.Keys
  {
    var taken := Apply(s, TakeCancel(c, id));
    if taken.cancellers[c].holding then Apply(taken, CancelTaken(c)) else taken
  }

  /** What a whole run comes to: result, and the channel and context it leaves behind. */
  function ResponseResult(s: State, id: ReqId, data: RespData): HandleResult
    requires s.pending.Keys <= s.calls.Keys
  {
    if id !in s.pending then UnknownRequest
    else if Convert(id, data).None? then BadResponse
    else if !CanSend(s.calls[id]) then ChannelUnavailable
    else Delivered
  }

  lemma WholeResponseComesTo(s: State, h: nat, id: ReqId, data: RespData)
    requires h !in s.handlers && s.pending.Keys <= s.calls.Keys
    ensures var t := WholeResponse(s, h, id, data);
            var result := ResponseResult(s, id, data);
            && t.pending == Without(s.pending, id)
            && h in t.handlers && t.handlers[h].stage == Finished(result)
            && t.calls == if result == Delivered
                          then s.calls[id := Cancel(Send(s.calls[id], Convert(id, data).value), Canceled)]
                          else s.calls
  {
    assert id !in s.pending ==> Without(s.pending, id) == s.pending;
    if id in s.pending {
      var taken := Apply(s, TakeResponse(h, id, data));
      assert taken.handlers[h] == Handler(id, data, Took);
      var sent := Apply(taken, SendResponse(h));
      if ResponseResult(s, id, data) == Delivered {
        var done := Apply(sent, CancelAfterSend(h));
        assert done.calls == s.calls[id := Cancel(Send(s.calls[id], Convert(id, data).value), Canceled)];
      }
    }
  }

  /** Entries older than their timeout are removed and cancelled; the others are as they were. */
  ghost predicate Swept(pending0: map<ReqId, PendingRequest>, pending1: map<ReqId, PendingRequest>,
                        calls0: map<ReqId, Call>, calls1: map<ReqId, Call>, now: int) {
    && pending1.Keys <= pending0.Keys && calls1.Keys == calls0.Keys
    && (forall id :: id in pending0 && now - pending0[id].createdAt > pending0[id].timeout ==>
          id !in pending1 && (id in calls1 ==> calls1[id].ctx != Live))
    && (forall id :: id in pending0 && now - pending0[id].createdAt <= pending0[id].timeout ==>
          id in pending1 && pending1[id] == pending0[id])
    && (forall id :: id in calls0 && (id in pending0 ==> now - pending0[id].createdAt <= pending0[id].timeout) ==>
          calls1[id] == calls0[id])
  }

  lemma UnexpiredIsSwept(pending: map<ReqId, PendingRequest>, calls: map<ReqId, Call>, now: int)
    ensures Swept(pending, Unexpired(pending, now), calls, CancelExpired(calls, pending, now), now)
  {
  }

  /** The pending map once all ids but those in `todo` have been looked at. */
  function KeptSoFar(pending: map<ReqId, PendingRequest>, todo: set<ReqId>, now: int): map<ReqId, PendingRequest> {
    map id | id in pending && (id in todo || !Expired(pending[id], now)) :: pending[id]
  }

  function CancelledSoFar(calls: map<ReqId, Call>, pending: map<ReqId, PendingRequest>, todo: set<ReqId>, now: int)
    : map<ReqId, Call>
  {
    map id | id in calls ::
      if id in pending && id !in todo && Expired(pending[id], now) then Cancel(calls[id], Canceled) else calls[id]
  }

  lemma SweepOne(pending: map<ReqId, PendingRequest>, calls: map<ReqId, Call>, todo: set<ReqId>, id: ReqId, now: int)
    requires id in todo && todo <= pending.Keys <= calls.Keys
    ensures var kept := KeptSoFar(pending, todo, now);
            var cancelled := CancelledSoFar(calls, pending, todo, now);
            var expired := Expired(pending[id], now);
            && id in kept && kept[id] == pending[id] && id in cancelled && cancelled[id] == calls[id]
            && KeptSoFar(pending, todo - {id}, now) == (if expired then Without(kept, id) else kept)
            && CancelledSoFar(calls, pending, todo - {id}, now)
               == if expired then cancelled[id := Cancel(calls[id], Canceled)] else cancelled
  {
  }

  lemma SweepEnds(pending: map<ReqId, PendingRequest>, calls: map<ReqId, Call>, now: int)
    ensures KeptSoFar(pending, pending.Keys, now) == pending
    ensures CancelledSoFar(calls, pending, pending.Keys, now) == calls
    ensures KeptSoFar(pending, {}, now) == Unexpired(pending, now)
    ensures CancelledSoFar(calls, pending, {}, now) == CancelExpired(calls, pending, now)
  {
  }

  class Manager {
    var pending: map<ReqId, PendingRequest>
    /** Channel, context and progress of every Call made through this manager, by request id. */
    var calls: map<ReqId, Call>

    /** A pending request points to a channel and a cancel function that exist. */
    ghost predicate Valid()
      reads this
    {
      pending.Keys <= calls.Keys
    }

    ghost predicate Shows(s: State)
      reads this
    {
      s.pending == pending && s.calls == calls
    }

    constructor ()
      ensures Valid() && Shows(Initial(0))
    {
      pending, calls := map[], map[];
    }

    /** The locked section of `Call` that makes the request visible. */
    method RegisterRequest(reqID: ReqId, ghost s: State)
      requires Valid() && Shows(s) && Enabled(s, Register(reqID))
      modifies this
      ensures Valid() && Shows(Apply(s, Register(reqID)))
      ensures pending.Keys == old(pending.Keys) + {reqID}
    {
      var c := calls[reqID];
      pending := pending[reqID := RecordOf(c)];
      calls := calls[reqID := c.(pc := Registered)];
    }

    /** The locked section of `Call` on both of its error exits: a failed send, and a context that is done. */
    method RemoveRequest(reqID: ReqId, ghost s: State, ghost step: Step)
      requires Valid() && Shows(s) && Enabled(s, step) && (step == Unregister(reqID) || step == Withdraw(reqID))
      modifies this
      ensures Valid() && Shows(Apply(s, step))
      ensures pending == Without(old(pending), reqID) && !Pendable(calls[reqID].pc)
    {
      var c := calls[reqID];
      pending := Without(pending, reqID);
      calls := calls[reqID := c.(pc := if c.pc.SendFailed? then Unregistered else Withdrawn)];
    }

    method HandleResponse(reqID: ReqId, data: RespData, ghost s: State, ghost h: nat) returns (result: HandleResult)
      requires Valid() && Shows(s) && h !in s.handlers
      modifies this
      ensures Valid() && Shows(WholeResponse(s, h, reqID, data))
      ensures result == ResponseResult(s, reqID, data)
      ensures result == UnknownRequest <==> reqID !in old(pending)
      ensures pending == Without(old(pending), reqID)
      ensures result == Delivered ==> Convert(reqID, data).Some? && calls[reqID].ctx != Live
      ensures result != Delivered ==> calls == old(calls)
    {
      WholeResponseComesTo(s, h, reqID, data);
      if reqID !in pending {
        assert Without(pending, reqID) == pending;
        return UnknownRequest;
      }
      pending := Without(pending, reqID);
      var resp := Convert(reqID, data);
      if resp.None? {
        return BadResponse;
      }
      if !CanSend(calls[reqID]) {
        return ChannelUnavailable;
      }
      // Send before cancelling, as the source does.
      calls := calls[reqID := Send(calls[reqID], resp.value)];
      calls := calls[reqID := Cancel(calls[reqID], Canceled)];
      return Delivered;
    }

    method CancelRequest(reqID: ReqId, ghost s: State, ghost c: nat)
      requires Valid() && Shows(s) && c !in s.cancellers
      modifies this
      ensures Valid() && Shows(WholeCancel(s, c, reqID))
      ensures pending == Without(old(pending), reqID)
      ensures calls == if reqID in old(pending) then old(calls)[reqID := Cancel(old(calls)[reqID], Canceled)]
                       else old(calls)
    {
      var found := reqID in pending;
      pending := Without(pending, reqID);
      if found {
        calls := calls[reqID := Cancel(calls[reqID], Canceled)];
      }
    }

    /** Removes and cancels exactly the requests older than their timeout; all others are untouched. */
    method CleanupExpired(now: int, ghost s: State)
      requires Valid() && Shows(s) && s.now == now
      modifies this
      ensures Valid() && Shows(Apply(s, Cleanup))
      ensures Swept(old(pending), pending, old(calls), calls, now)
    {
      ghost var pending0, calls0 := pending, calls;
      var todo := pending.Keys;
      SweepEnds(pending, calls, now);
      while todo != {}
        invariant todo <= pending0.Keys
        invariant pending == KeptSoFar(pending0, todo, now)
        invariant calls == CancelledSoFar(calls0, pending0, todo, now)
        decreases todo
      {
        var id :| id in todo;
        SweepOne(pending0, calls0, todo, id, now);
        todo := todo - {id};
        if Expired(pending[id], now) {
          calls := calls[id := Cancel(calls[id], Canceled)];
          pending := Without(pending, id);
        }
      }
      UnexpiredIsSwept(pending0, calls0, now);
    }
  }
}
