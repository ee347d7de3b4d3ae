/** uploadFile and waitForObjectCompletion of internal/mcp/tools.go: what their success says about the store. */
module UploadFile {
  import opened Wrappers
  import opened ObjectStore
  import UploadProtocol
  import opened RpcProtocol

  /** One look at the object: when, and the row found. */
  datatype Poll = Poll(time: int, row: Option<Row>)

  datatype UploadError = RequestFailed | DeviceRefused | UploadFailed | UploadTimeout

  predicate Decided(poll: Poll) {
    poll.row.Some? && (poll.row.value.status == Completed || poll.row.value.status == Failed)
  }

  /** The k-th look is before the deadline and the first to find the object completed or failed. */
  ghost predicate FirstDecided(polls: seq<Poll>, deadline: int, k: nat) {
    && k < |polls| && Decided(polls[k])
    && (forall j :: 0 <= j <= k ==> polls[j].time < deadline)
    && (forall j :: 0 <= j < k ==> !Decided(polls[j]))
  }

  lemma OneIsFirst(polls: seq<Poll>, deadline: int, i: nat, j: nat)
    requires FirstDecided(polls, deadline, i) && FirstDecided(polls, deadline, j)
    ensures i == j
  {
  }

  /** `polls` are the looks at the clock and the table, one a second, up to one at or past the deadline. */
  method WaitForObjectCompletion(polls: seq<Poll>, deadline: int) returns (r: Result<Row, UploadError>, ghost k: nat)
    requires polls != [] && deadline <= polls[|polls| - 1].time
    ensures r.Ok? ==> FirstDecided(polls, deadline, k) && polls[k].row == Some(r.value) && r.value.status == Completed
    ensures r == Err(UploadFailed) ==> FirstDecided(polls, deadline, k) && polls[k].row.value.status == Failed
    ensures r.Err? ==> r.error == UploadFailed || r.error == UploadTimeout
    ensures r == Err(UploadTimeout) ==> forall j: nat :: !FirstDecided(polls, deadline, j)
  {
    var i := 0;
    while polls[i].time < deadline
      invariant i < |polls|
      invariant forall j :: 0 <= j < i ==> polls[j].time < deadline && !Decided(polls[j])
      decreases |polls| - i
    {
      k := i;
      if polls[i].row.Some? && polls[i].row.value.status == Completed {
        return Ok(polls[i].row.value), k;
      }
      if polls[i].row.Some? && polls[i].row.value.status == Failed {
        return Err(UploadFailed), k;
      }
      i := i + 1;
    }
    k := i;
    return Err(UploadTimeout), k;
  }

  /** What a look finds in a state of the upload protocol. */
  function Seen(s: UploadProtocol.State, id: ObjectID): Option<Row> {
    if id in s.rows then Some(s.rows[id]) else None
  }

  /**
   The part of uploadFile after its row has been made. `outcome` is what the upload call to the device returned
   and `states` the states of the store at the looks. It reports a size only for an object that was completed,
   and stored, when it was looked at; on any other outcome of the call the caller marks the row failed.
   */
  method FinishUploadFile(id: ObjectID, outcome: Outcome, polls: seq<Poll>, deadline: int,
                          ghost states: seq<UploadProtocol.State>)
    returns (r: Result<int, UploadError>, markFailed: bool, ghost k: nat)
    requires polls != [] && deadline <= polls[|polls| - 1].time
    requires |states| == |polls|
             && forall j :: 0 <= j < |states| ==> UploadProtocol.Inv(states[j]) && polls[j].row == Seen(states[j], id)
    ensures markFailed <==> !outcome.Answered? || !outcome.resp.success
    ensures r.Ok? ==> !markFailed && k < |states| && id in states[k].rows && states[k].rows[id].status == Completed
    ensures r.Ok? ==> r.value == states[k].rows[id].fileSize
    ensures r.Ok? <==>
              !markFailed && exists j: nat :: FirstDecided(polls, deadline, j) && polls[j].row.value.status == Completed
    ensures r == Err(RequestFailed) <==> !outcome.Answered?
    ensures r == Err(DeviceRefused) <==> outcome.Answered? && !outcome.resp.success
    ensures r == Err(UploadTimeout) <==> !markFailed && forall j: nat :: !FirstDecided(polls, deadline, j)
    ensures r.Ok? && id !in states[k].deleting ==>
              StoragePath(id) in states[k].files && |states[k].files[StoragePath(id)]| == r.value
  {
    k := 0;
    if !outcome.Answered? {
      return Err(RequestFailed), true, k;
    }
    if !outcome.resp.success {
      return Err(DeviceRefused), true, k;
    }
    var found;
    found, k := WaitForObjectCompletion(polls, deadline);
    forall j: nat | FirstDecided(polls, deadline, j) && FirstDecided(polls, deadline, k) ensures j == k {
      OneIsFirst(polls, deadline, j, k);
    }
    if found.Err? {
      return Err(found.error), false, k;
    }
    assert UploadProtocol.Inv(states[k]) && polls[k].row == Seen(states[k], id);
    return Ok(found.value.fileSize), false, k;
  }
}
