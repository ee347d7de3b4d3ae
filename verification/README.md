# Verified models of the device server

Dafny models of the logic the server decides by itself, once sockets, SQL and disk are replaced by
sequences and maps, and proofs about every run, every input or every reachable state of them.

`dafny verify dfyconfig.toml` checks the whole project (Dafny 4.11).

## The five cores

1. **RPC correlation** (`RpcProtocol`, `RpcInvariant`, `WsFrames`, `RpcTheorems`, `RpcOutcomes`, `RpcManager`).
   `Call`, `HandleResponse`, `CancelRequest` and `CleanupExpired` race over one pending map, one
   capacity-1 channel per call and one context per call. The model is a step machine: a step is one
   critical section, one channel operation or one context event, so every interleaving of any number
   of calls, handlers and cancellers is a run of it. `Inv` is inductive over all 20 kinds of step; the
   theorems follow from it. `RpcManager.Manager` is the Go object; each of its methods is proved to be
   a step, or a whole run of steps, of the machine.
2. **Object lifecycle** (`ObjectStore`, `UploadProtocol`, `UploadTheorems`, `ObjectStorage`, `UploadRuns`,
   `UploadFile`, `TokenManager`, `SessionManager`, `Expiry`, `RetentionProtocol`, `Retention`, `RetentionLaws`,
   `RetentionLosses`,
   `Download`). `UploadProtocol` splits `HandleUpload`, `CancelUpload` and deletion into single database statements,
   file operations and reads, any of which may fail where the source checks for failure. `ObjectStorage.Storage` is
   the Go object for operations that run undisturbed, with parameters for the database and file operations that may
   fail; `UploadRuns` shows that its uploads, cancels and deletions are runs of that protocol, however a stream is
   cut into reads. `RetentionProtocol` splits token requests at their three statements and cleanups into their query
   and the removal of each file and row, and interleaves any number of both with everything else; `Retention` says
   exactly when a token keeps its object. `Download` follows one object from its upload to the bytes a client gets
   for a token.
3. **Byte ranges** (`Strings`, `ByteRange`, `FileServer`). The parser is proved equivalent, in both
   directions and for every header, to a declarative reading of Range headers (`Denotes`).
4. **Admin broadcast hub** (`AdminHub`, `AdminHubManager`). A bounded FIFO fanned out to bounded
   FIFOs, with slow connections dropped.
5. **MCP tree walk and path policy** (`DirectoryWalk`, `PathPolicy`).

## What the source's own promises come to

Some promises hold only under a condition; the condition is then proved exact, or a run that breaks
the promise without it is exhibited.

- The comment at internal/rpc/manager.go:256-257 says that sending before cancelling keeps the
  response from losing to the cancellation. That is so if and only if the caller is already parked at
  its select (`RpcTheorems.ResponseWinsIffParked`); a caller still sending may return ErrCancelled
  although HandleResponse reported success (`RpcTheorems.DeliveredYetCancelled`).
- A completed row has its file as long as no second upload of the object starts while one is in flight
  (`UploadTheorems.CompletedMeansStored`). The condition is needed for every object: from every reachable
  state in which an acceptable upload is anywhere before its rename, beginning a second one has a continuation that
  ends in a completed row with a file of the wrong size (`UploadTheorems.OneUploaderIsNeeded`), and for every content
  and digest there is such a run from the start (`UploadTheorems.TwoUploadersBreakThePromise`).
- That an accepted download token keeps its object from garbage collection is not so in general, even when token
  requests run one at a time and write the expiration: a cleanup deletes what its query found without a second look,
  so a request made in between loses its object. It is so when requests also begin only while no cleanup is running
  (`Retention.ValidTokenSurvivesCleanup`). For any number of overlapping requests and cleanups the exact condition is
  proved: retention is kept all along a run if and only if each of its steps is in order
  (`Retention.RetentionIffInOrder`). In order means that a token is issued only for an object that no cleanup has found
  or taken; that no request fails to write its expiration when the object has an earlier one; that none writes it
  after a token of a later expiry has been handed out for the object; that a link's token, for which no expiration is
  written, is issued only while the object has no earlier one; and that no cleanup's query comes between the two
  writes of a request for an expired object. Every run that leaves this order can, by cleanups alone, go on to lose the
  object of an accepted token (`Retention.OutOfOrderLoses`). Runs from the start that do are given for each case
  (`RetentionLosses.RequestAfterQueryLosesObject`, `TakenMeanwhileLosesObject`, `UnwrittenLosesObject`,
  `OverlapLosesObject`, `LinkLosesObject` and `QueryHalfWayLosesObject`).
- sendDeviceList sends without the lock. It hits a closed channel if and only if the fan-out has come to
  the connection more than 256 times since it was registered (`AdminHub.SnapshotPanicsExactly`), and
  some run does so (`AdminHub.SnapshotCanPanic`).
- The allowed-root test is containment of paths except for a root without components: the root "/"
  admits "/" and nothing below it (`PathPolicy.TestIsContainmentUnlessBare`).
- A last position at or past the end of the file is rejected, where section 14.1.2 of RFC 9110 clamps
  it. The model does what the code does.

## Assumptions

Request, object and token identifiers are fresh (UUIDs and 32 random bytes), and an object id has the
36 characters of a UUID. The clock does not go back. SHA-256 is an arbitrary function of the bytes.
Paths are relative to the objects directory. `filepath.Clean` follows its documented rules for Unix.
Every map iteration may come in any order. sendToDevice returns, with or without an error: it waits for the
lock of the connection map, and handleHello can close a connection while it holds that lock
(internal/ws/manager.go:223-228, 480). A Call stuck there has not come to its select, so its deadline does not end it;
`RpcTheorems.EveryFairRunReturns` is about Calls whose sendToDevice comes back.

## Model

| member | source | states |
|---|---|---|
| RpcInvariant.StepKeepsInv | internal/rpc/manager.go:84-143 | every step of every thread, of 20 kinds, keeps the invariant: pending ids have live records and empty channels, no request is taken twice, every answer has a delivering handler, no waiting caller is stranded |
| RpcInvariant.RunKeepsInv | internal/rpc/manager.go:64-313 | the same over every run |
| RpcInvariant.TakenCanSend | internal/rpc/manager.go:258-269 | whoever took a request finds its channel free |
| RpcTheorems.NoStrandedCaller | internal/rpc/manager.go:84-292 | in every reachable state a caller parked at its select is pending, or a handler or canceller past its unlock will serve it, or a response that could not be decoded was its only one |
| RpcTheorems.NoStrandedCallerFromFrames | internal/ws/manager.go:282-370 | with responses that come from WebSocket frames the last case cannot occur and the coming response converts |
| RpcTheorems.ResolvedAtMostOnce | internal/rpc/manager.go:214-224 | no request id is ever taken from the pending map by two HandleResponse runs |
| RpcTheorems.ChannelNeverFull | internal/rpc/manager.go:258-269 | a pending id has an empty channel, and the "channel full" branch is never taken in any run |
| WsFrames.HandlersComeFromFrames | internal/ws/manager.go:187-204 | every running handler was started for a received frame from an authenticated connection with its id, and none fails to convert |
| RpcTheorems.AnswerIsCorrelated | internal/ws/manager.go:306-369 | a returned response carries the call's own id and the payload of a frame received for that id, and is a success exactly for a `*_resp` frame, whatever else is outstanding |
| RpcTheorems.AnswerIsKept | internal/rpc/manager.go:122-127 | a response that has reached its caller is what that caller returns, in every continuation |
| RpcTheorems.ResponseWinsIffParked | internal/rpc/manager.go:256-264 | after the send the caller returns the response in every continuation if and only if it was parked at the send |
| RpcTheorems.DeliveredToSender | internal/rpc/manager.go:256-264 | any live caller still sending can be led to ErrCancelled although HandleResponse delivered |
| RpcTheorems.DeliveredYetCancelled | internal/rpc/manager.go:113-142 | such a run exists from the initial state |
| RpcTheorems.ReturnedStaysOut | internal/rpc/manager.go:101-142 | once a Call has returned, by any exit, its id is not pending and never will be, and its outcome is final |
| RpcTheorems.PendingAreInFlight | internal/rpc/manager.go:101-104 | every pending id belongs to a Call that has not returned, under that Call's own record |
| RpcTheorems.CleanupOnlyAfterDeadline | internal/rpc/manager.go:295-313 | a call removed by CleanupExpired has a passed deadline; one whose deadline is ahead is untouched |
| RpcTheorems.NoStepSetsBack | internal/rpc/manager.go:64-143 | no step of any thread takes a call further from its return or its deadline further away |
| RpcTheorems.NextIsProgress | internal/rpc/manager.go:121-142 | a call that has not returned has an enabled step that strictly decreases (own steps left, time to deadline) |
| RpcTheorems.NextStaysEnabled | internal/rpc/manager.go:121-142 | other threads cannot take that step away |
| RpcTheorems.OverdueHasTurn | internal/rpc/manager.go:121-142 | from its deadline on, a call that has not returned has an enabled turn that needs no other thread |
| RpcTheorems.TurnIsProgress | internal/rpc/manager.go:64-143 | any run in which the call has its turn, with any interference, ends closer to its return |
| RpcTheorems.EveryFairRunReturns | internal/rpc/manager.go:64-143 | under every schedule whose rounds move the call or give it its turn, with sendToDevice returning, every call has returned after at most seven rounds |
| RpcTheorems.EveryCallReturns | internal/rpc/manager.go:84-143 | from every reachable state a call can return within eight steps without help from any other thread |
| RpcOutcomes.ErrorIsFirstEnd | internal/rpc/manager.go:113-142 | in every run a Call returns the send error if and only if its send has failed, ErrTimeout only when the first end of its context was a deadline, and ErrCancelled only when that was a cancellation |
| RpcOutcomes.ContextIsFirstEnd | internal/rpc/manager.go:87 | in every run a context is what ended it first, whichever thread did |
| RpcOutcomes.WokenReturnsByFirstEnd | internal/rpc/manager.go:128-142 | a caller woken or withdrawn returns, in every continuation, ErrTimeout if and only if the first end of its context was a deadline, else ErrCancelled |
| RpcOutcomes.SilentDeviceTimesOut | internal/rpc/manager.go:128-141 | a parked caller whose deadline fires returns ErrTimeout in every continuation |
| RpcOutcomes.DeadlineIsAsked | internal/rpc/manager.go:83-99 | in every run the deadline is the beginning plus the timeout asked for, 30 s when that is 0, and the pending record names device, method and timeout of the call |
| RpcOutcomes.DeadlineFiresInTime | internal/rpc/manager.go:83-87 | no deadline fires before that |
| RpcOutcomes.StampedNow | internal/rpc/manager.go:96 | CreatedAt is the time at which it was read, in every continuation |
| RpcOutcomes.SelectMayTakeEither | internal/rpc/manager.go:122-128 | with a response in the channel and the context done, either case may be taken |
| RpcOutcomes.PassedOnExactly | internal/ws/manager.go:187-204 | exactly the responses and errors of authenticated connections are passed on, each converting to a response with its id, payload and success |
| RpcOutcomes.OtherShapesConvert | internal/rpc/manager.go:226-254 | a typed or decoded response is kept as it is, and a map that does not say counts as a success |
| RpcManager.WholeResponseComesTo | internal/rpc/manager.go:214-270 | the three steps of HandleResponse in a row: result, pending map, channel and context, for each of its four outcomes |
| RpcManager.Manager.RegisterRequest | internal/rpc/manager.go:101-104 | is the registering step |
| RpcManager.Manager.RemoveRequest | internal/rpc/manager.go:113-132 | is the step that withdraws the request on either error exit; the entry is gone |
| RpcManager.Manager.HandleResponse | internal/rpc/manager.go:214-270 | is its three steps in a row; unknown exactly when not pending; the entry is gone in every case; delivered implies converted and cancelled after the send |
| RpcManager.Manager.CancelRequest | internal/rpc/manager.go:281-292 | is its two steps in a row; removes the entry and cancels exactly a request that was pending |
| RpcManager.Manager.CleanupExpired | internal/rpc/manager.go:295-313 | the loop removes and cancels exactly the entries older than their timeout and leaves all others untouched |
| RpcManager.UnexpiredIsSwept | internal/rpc/manager.go:300-312 | the cleanup step of the machine is that sweep |
| UploadProtocol.StepKeepsInv | internal/objects/upload.go:28-121 | every step of uploads, cancels, deletions and late failures, succeeding or failing, keeps the invariant, given one uploader per object |
| UploadProtocol.RunKeepsInv | internal/objects/upload.go:28-179 | the same over every run |
| UploadProtocol.WriteKeepsInv | internal/objects/upload.go:72-76 | a write to a temp file reaches no other upload's temp file and no object's file |
| UploadProtocol.GoodRenameKeepsInv | internal/objects/upload.go:97-107 | only content that passed size and digest gets under the final path |
| UploadTheorems.CompletedMeansStored | internal/objects/upload.go:35-112 | in every run with one uploader per object, a completed row on which no deletion has begun has a final file of exactly its size with its digest |
| UploadTheorems.RowIsAnnounced | internal/objects/storage.go:51-75 | in every run a row has the size and digest that its InitUpload announced |
| UploadTheorems.CompletedAsAnnounced | internal/objects/upload.go:82-112 | so a completed object has a file of the announced size with the announced digest |
| UploadTheorems.LateFailureFails | internal/mcp/tools.go:613-621 | a late failure changes the status of that row only, whatever it was |
| UploadTheorems.CompletedFileIsStable | internal/objects/upload.go:103-112 | no step of any thread changes the file of a completed object until a deletion of it begins |
| UploadTheorems.UntouchedStays | internal/objects/upload.go:51-67 | a step changes no file but those it names |
| UploadTheorems.SecondUploadBreaks | internal/objects/upload.go:54-112 | for every object of any size and digest: where one upload has passed its checks and another one is about to create its temp file, the first can complete with a file of the wrong size |
| UploadTheorems.SecondUploadCanBreak | internal/objects/upload.go:28-112 | from any state in which an upload that would be accepted is anywhere before its rename, beginning a second one has a continuation that breaks the promise |
| UploadTheorems.OneUploaderIsNeeded | internal/objects/upload.go:28-112 | so in every state that runs with one uploader per object can reach, for every phase of the first upload before its rename |
| UploadTheorems.TwoUploadersBreakThePromise | internal/objects/upload.go:54-56 | for every content and digest, some run from the start uploads it twice and ends completed with a file of the wrong size |
| UploadTheorems.RunKeepsPrefixes | internal/objects/upload.go:72-76 | in every run what an upload has written is what its stream began with |
| ObjectStore.PathsAreApart | internal/objects/storage.go:259-266 | two objects never share a file, and no temp file is any object's file |
| ObjectStore.PathIsReadable | internal/objects/storage.go:259-266 | the path is the id below a directory named by its first two characters, a shorter id itself |
| ObjectStorage.ExactAcceptance | internal/objects/upload.go:69-112 | an upload ends completed if and only if the stream ends cleanly after exactly FileSize bytes with the given digest; the final file then is the stream; otherwise no final file changes; the temp file stays exactly for an over-long stream |
| ObjectStorage.AcceptedIff | internal/objects/upload.go:28-121 | with failing operations: accepted if and only if every operation it needs succeeds and the stream ends cleanly after exactly FileSize bytes with the given digest; the final file changes otherwise only when nothing but the last status write fails |
| ObjectStorage.RowAndTempAfter | internal/objects/upload.go:40-112 | with failing operations: the status and completion time an upload leaves, no other row changed, and the temp file exactly when the stream was too long and no write failed |
| ObjectStorage.NothingReceived | internal/objects/upload.go:28-60 | an upload that does not come to its temp file changes no file, and its row's status only |
| ObjectStorage.AllWellIsAfterUpload | internal/objects/upload.go:69-112 | when no operation fails the outcome depends only on the bytes of the stream and on how it ended |
| UploadRuns.AcceptedAsAnnounced | internal/objects/upload.go:69-112 | wherever a run has led, an undisturbed upload is accepted if and only if its stream ends cleanly with the size and digest announced by InitUpload |
| UploadRuns.HandleUploadIsRun | internal/objects/upload.go:28-121 | an undisturbed upload is one run of the step protocol, whichever of its operations fail and for every way its stream is cut into reads |
| UploadRuns.CancelUploadIsRun | internal/objects/upload.go:155-179 | an undisturbed cancel is one run of the protocol that ends with the row failed and the temp file gone |
| UploadRuns.DeleteObjectIsRun | internal/objects/storage.go:219-248 | an undisturbed deletion is one run of the protocol that ends with row and file gone |
| UploadRuns.CopyIsRun | internal/objects/upload.go:72-80 | the copy of any reads is a run that takes exactly the first FileSize+1 bytes of the stream |
| ObjectStorage.CopyMeans | internal/objects/upload.go:72-80 | a copy breaks off exactly at a failing write that it comes to, having written what came before; else it takes the whole stream, or its first FileSize+1 bytes |
| ObjectStorage.FlatMeans | internal/objects/upload.go:72-76 | nothing is lost, added or moved between the reads of a stream |
| ObjectStorage.Storage.CopyN | internal/objects/upload.go:76 | the copy loop writes exactly the first FileSize+1 bytes, or those before the write that fails, however they are cut into reads |
| ObjectStorage.Storage.FailUpload | internal/objects/upload.go:61-86 | an error exit marks the row failed, unless that write fails, and removes the temp file only when err is set |
| ObjectStorage.Storage.HandleUpload | internal/objects/upload.go:28-121 | rows, files and result for every stream and every pattern of failing database and file operations, an outcome that AcceptedIff and HandleUploadIsRun explain |
| ObjectStorage.Storage.CancelUpload | internal/objects/upload.go:155-179 | refused unless the row is read and pending or uploading; then the temp file goes, and the row fails unless that write fails |
| ObjectStorage.Storage.InitUpload | internal/objects/storage.go:38-87 | refused above the size limit, and when the insert fails; else exactly one row is added, pending, with the announced size and digest |
| ObjectStorage.Storage.UpdateObjectStatus | internal/objects/storage.go:120-161 | unconditional on the old status; an error exactly when the statement fails or the row is missing |
| ObjectStorage.Storage.SetObjectExpiration | internal/objects/storage.go:276-288 | sets the expiry of that row only; a missing row is no error, a failing statement is and changes nothing |
| ObjectStorage.Storage.DeleteObject | internal/objects/storage.go:219-248 | the file goes even when the row's deletion then fails, the row even when the file's removal failed; nothing else changes |
| ObjectStorage.Storage.CleanupExpiredObjects | internal/objects/storage.go:291-342 | row by row and file by file: what goes is what belongs to an expired object whose scan and own removal succeed, the count is that of the rows, and nothing else changes |
| ObjectStorage.LuckyCleanupTakesAll | internal/objects/storage.go:291-342 | when no operation fails, exactly the expired rows and their files go |
| ObjectStorage.Storage.CollectAll | internal/objects/storage.go:305-335 | the loop does that, in any order of the rows |
| ObjectStorage.Storage.CollectObject | internal/objects/storage.go:306-334 | one round: the file, the row, and the early continues |
| ObjectStorage.Storage.StartUpload | internal/objects/upload.go:40-60 | up to the temp file: the three early error exits and the state each leaves |
| ObjectStorage.Storage.ReceiveUpload | internal/objects/upload.go:40-76 | the copy into the new temp file, and the decision on it |
| ObjectStorage.DecisionIsAfterUpload | internal/objects/upload.go:76-112 | the tests on the FileSize+1 bytes taken decide the same as the whole stream does |
| ObjectStorage.Storage.DecideUpload | internal/objects/upload.go:76-120 | makes that decision, with a close, a rename and status writes that may fail, and carries it out |
| ObjectStorage.Storage.AcceptUpload | internal/objects/upload.go:103-112 | the temp file becomes the final file, and the row is completed unless that write fails |
| UploadFile.WaitForObjectCompletion | internal/mcp/tools.go:676-693 | the first look before the deadline that finds completed or failed decides; without one it times out |
| UploadFile.FinishUploadFile | internal/mcp/tools.go:612-629 | success if and only if the device agreed and the deciding look found the object completed, each other outcome exactly when its cause is given; success means, unless a deletion had begun, stored with the reported size |
| Expiry.CleanupIsInvisible | internal/objects/token.go:62-113 | histories that differ only in their cleanups give the same answers to the same validations |
| Expiry.ThinnedAnswersAlike | internal/admin/session.go:51-91 | the induction behind it: removing expired entries changes no later answer, whether entries are overwritten or inserted |
| Expiry.OneMoreCleanup | internal/objects/token.go:95-113 | one more cleanup, anywhere in any history, changes no answer |
| Expiry.EachValidationIsAnswered | internal/objects/token.go:62-93 | each validation of a history is answered from the table as it is then |
| Expiry.AddedIsFound | internal/admin/session.go:37-67 | a session just added, or a token inserted under an unused text, validates until it expires |
| Expiry.OthersAreFoundAsBefore | internal/admin/session.go:70-74 | a removed entry is never found, and no operation changes the answer for another key |
| TokenManager.TokenManager.GenerateToken | internal/objects/token.go:28-60 | an error when the random source or the insert fails; else the token expires expiresIn from now and is accepted at once |
| TokenManager.TokenManager.ValidateToken | internal/objects/token.go:63-93 | accepts exactly the tokens of the table that have not expired, and says which error otherwise |
| TokenManager.TokenManager.CleanupExpiredTokens | internal/objects/token.go:96-113 | exactly the tokens that have expired go, and no answer at that time changes |
| TokenManager.TokenManager.RevokeToken | internal/objects/token.go:116-134 | removes that token only |
| SessionManager.SessionManager.Add | internal/admin/session.go:37-41 | is the overwriting put of the history model |
| SessionManager.SessionManager.Validate | internal/admin/session.go:52-67 | accepts exactly the known sessions that have not expired |
| SessionManager.SessionManager.Delete | internal/admin/session.go:70-74 | removes that session only |
| SessionManager.SessionManager.CleanupExpiredSessions | internal/admin/session.go:82-89 | the loop removes exactly the sessions that have expired, and no answer at that time changes |
| RetentionProtocol.StepKeepsBooks | internal/objects/storage.go:291-342 | every step keeps ids and lifetimes as the handlers made them, and records every accepted token of whose object a cleanup took file or row |
| Retention.StepKeepsIffInOrder | internal/objects/api.go:192-209 | every step of any number of overlapping requests, cleanups and other handlers keeps retention if and only if it is in order |
| Retention.GrantKeepsIff | internal/mcp/tools.go:453 | a token issued without an expiration keeps it if and only if no cleanup has found or taken the object and it has no earlier expiry |
| Retention.IssueKeepsIff | internal/objects/api.go:197-203 | issuing a token whose expiration is yet to be written keeps it if and only if no cleanup has found or taken the object |
| Retention.WriteKeepsIff | internal/objects/api.go:205-209 | an expiration write keeps it if and only if no token of a later expiry has been handed out for the object |
| Retention.UnwrittenKeepsIff | internal/objects/api.go:205-209 | a failed expiration write keeps it if and only if the token is no longer accepted or the object has no earlier expiry |
| Retention.GenerateKeepsIff | internal/objects/api.go:192-209 | a whole token request keeps it if and only if no cleanup has found or taken the object, and it writes the expiration or the object has no earlier one |
| Retention.QueryKeepsIff | internal/objects/storage.go:293-302 | a cleanup's query keeps it if and only if no request for an object it finds is between its two writes |
| Retention.FileKeeps | internal/objects/storage.go:313-322 | a cleanup that takes a file takes none of an accepted token's object, if retention was kept so far |
| Retention.RowKeeps | internal/objects/storage.go:324-333 | so with the row |
| Retention.RetentionIffInOrder | internal/objects/api.go:174-209 | over every run of requests and cleanups, split at every statement: retention is kept all along it if and only if all its steps are in order |
| Retention.OutOfOrderLoses | internal/objects/storage.go:291-342 | every run that is not in order has a beginning after which cleanups alone lose the object of an accepted token |
| Retention.SurvivesIffSafe | internal/objects/storage.go:291-342 | row and file of an accepted token's object survive whatever running and new cleanups do while it is accepted, if and only if none has found it and its expiry is unset or no earlier than the token's |
| Retention.HandedOutTokenKeepsObject | internal/objects/token.go:83-86 | after every run in order, no accepted token has lost its object, and one that was handed out keeps row and file whatever cleanups do while it is accepted |
| Retention.SerialIsInOrder | internal/objects/api.go:192-209 | runs of whole requests that write their expirations and begin while no cleanup is running are in order |
| Retention.ValidTokenSurvivesCleanup | internal/objects/storage.go:276-342 | after any such run no cleanup changes or removes an object as long as it has a token ValidateToken would accept |
| RetentionLaws.TokensLastADay | internal/objects/api.go:198 | every token is for its object, and is accepted up to 24 hours after the time its request read and not longer |
| RetentionLaws.OnlyCompletedGetTokens | internal/objects/api.go:184-195 | a request for an object that is missing or not completed gets no token and changes nothing |
| RetentionLaws.WrittenExpiration | internal/objects/storage.go:276-288 | a written request sets the object's expiration to its token's, and nothing else |
| RetentionLaws.RevokedIsRefused | internal/objects/token.go:116-134 | a revoked token is refused at once, any other is as it was |
| RetentionLaws.ExpiredTokensGo | internal/objects/token.go:96-113 | the cleanup of tokens takes exactly those that have expired |
| RetentionLaws.DeletedIsGone | internal/objects/storage.go:219-248 | a deleted object has neither row nor file, every other has what it had |
| RetentionLaws.LateFailureFails | internal/objects/storage.go:120-161 | a late failure changes the status of that row only |
| RetentionLaws.QueryFinds | internal/objects/storage.go:293-302 | a cleanup finds exactly the objects whose expiry lies before the time it read |
| RetentionLaws.NewObjectIsPending | internal/objects/storage.go:51-75 | a new object is pending with the announced size and digest, without content and expiration |
| RetentionLosses.GenerateIsRun | internal/objects/api.go:184-209 | a whole token request is the run of its three statements |
| RetentionLosses.CleanupIsRun | internal/objects/storage.go:291-342 | the cleanup of the storage class is one run of these steps, whichever of its operations fail |
| RetentionLosses.LinkIsInOrder | internal/mcp/tools.go:415-453 | the token of a link for a new object, or for the empty object id after a shadowed error, is in order |
| RetentionLosses.OverlapKeepsIff | internal/objects/api.go:197-209 | of two overlapping requests in any state: retention is kept if and only if the later token's expiration is written last or both were issued at the same instant |
| RetentionLosses.OverlapLosesObject | internal/objects/api.go:197-209 | for every delay between the two, a run from the start whose writes are the other way round loses the object |
| RetentionLosses.UnwrittenSecondKeepsIff | internal/objects/api.go:205-209 | a second request that does not write its expiration keeps retention if and only if it comes at the instant of the first |
| RetentionLosses.UnwrittenLosesObject | internal/objects/api.go:205-209 | for every later instant, such a run from the start loses the object |
| RetentionLosses.LinkSecondKeepsIff | internal/mcp/tools.go:453 | a link's token after another token of the object keeps retention if and only if it comes at the same instant |
| RetentionLosses.LinkLosesObject | internal/mcp/tools.go:453 | for every later instant, such a run from the start loses the object |
| RetentionLosses.QueryHalfWayKeepsIff | internal/objects/api.go:197-209 | a cleanup's query between the two writes of a second request keeps retention if and only if the first one's expiry has not passed |
| RetentionLosses.QueryHalfWayLosesObject | internal/objects/api.go:197-209 | otherwise such a run from the start loses the object |
| RetentionLosses.RequestAfterQueryKeepsIff | internal/objects/storage.go:293-328 | a whole, written second request after a cleanup's query, and before its deletions, keeps retention if and only if the object had not expired at the query |
| RetentionLosses.RequestAfterQueryLosesObject | internal/objects/storage.go:293-328 | otherwise such a run from the start loses the object |
| RetentionLosses.TakenMeanwhileLosesObject | internal/objects/api.go:184-198 | a request that read the status before a cleanup took the object hands out a token that has lost it, in a run from the start |
| Download.HandleDownload | internal/objects/api.go:231-274 | answers from the file of the object that the token was issued for, or that is named; refused exactly for a token that is not accepted or an object without a row |
| Download.TargetIsServed | internal/objects/download.go:56-116 | a request that leads to a content is answered 200 with all of it without a Range header, and 206 with the piece a single range asks for |
| Download.RefusedExactly | internal/objects/api.go:241-264 | refused are exactly tokens that are unknown or expired and objects without a row |
| Download.ByObjectIsByToken | internal/objects/api.go:250-251 | by object id the same file is found as by a token for it |
| Download.RunKeepsContent | internal/objects/api.go:231-274 | in every run an object that takes no upload keeps the same file as long as it has a row and no cleanup has taken anything of it |
| Download.RunKeepsGood | internal/objects/token.go:63-93 | in every run in order a token handed out for an object keeps leading to it until it expires, unless it is revoked or the object deleted |
| Download.DownloadIsUpload | internal/objects/api.go:231-274 | end to end, over all runs in order: the reply to a request with an accepted token, or by id, has exactly the uploaded bytes for a body, or the piece of them asked for, whatever requests and cleanups there are in between, half way or whole |
| ByteRange.ParseOne | internal/objects/download.go:141-195 | one part of the header is parsed as the specification function says, without int64 overflow |
| ByteRange.ParseRange | internal/objects/download.go:127-203 | the loop computes the specification function, with the first failing part's error |
| ByteRange.PartMeans | internal/objects/download.go:141-192 | a part parses to a range if and only if it spells that range and the range lies in the file |
| ByteRange.HeaderMeans | internal/objects/download.go:127-203 | a header parses to a list of ranges if and only if it is `bytes=` and comma-separated parts that denote them in order |
| ByteRange.RangeBounds | internal/objects/download.go:187-192 | every accepted range has 0 <= start <= end < fileSize and a length between 1 and fileSize |
| ByteRange.SuffixNotNegative | internal/objects/download.go:155-165 | a parsed suffix is never negative |
| ByteRange.RoundTrip | internal/objects/download.go:127-203 | printing any non-empty list of ranges of a file, with any white space around the commas, and parsing gives it back |
| ByteRange.OpenIsExplicit | internal/objects/download.go:166-173 | `first-` gives the same as `first-(size-1)`, accepted or not |
| ByteRange.SuffixIsExplicit | internal/objects/download.go:155-165 | `-n` gives the same as the explicit last n bytes, the whole file when it is shorter, and an error for n = 0 or an empty file |
| ByteRange.LastBytesAreLast | internal/objects/download.go:161-165 | the last n bytes end with the file and are n, or all there are |
| ByteRange.WrittenHeaderParses | internal/objects/download.go:127-203 | the header as a client writes it, `bytes=` and decimal `start-end` parts with spaces around the commas, parses to the ranges written |
| ByteRange.OtherUnitIsRefused | internal/objects/download.go:129-131 | a header that does not begin with `bytes=` is refused |
| Strings.SplitOfJoin | internal/objects/download.go:136 | splitting undoes joining for separator-free parts |
| Strings.JoinOfSplit | internal/objects/download.go:136 | joining undoes splitting for all strings |
| Strings.TrimPadded | internal/objects/download.go:141 | trimming removes any white space put around trimmed text |
| Strings.ParseIntOfDecimal | internal/objects/download.go:157 | parsing undoes decimal printing for every int64 value that is not negative |
| Strings.DecimalDigits | internal/objects/download.go:99-100 | decimal notation digit by digit |
| Strings.SignedDecimal | internal/objects/download.go:157 | a sign before the digits is read as such |
| Strings.NotANumber | internal/objects/download.go:157-160 | no other character, no empty text and no number past int64 is read |
| Strings.WhiteSpace | internal/objects/download.go:141 | blanks, tabs and line ends are trimmed, and no printable ASCII character is |
| FileServer.ServeFile | internal/objects/download.go:29-117 | without a header 200, the file's length and the whole file; with one what Answer says; an error exactly when there is no file or the status is neither 200 nor 206 |
| FileServer.LengthIsBodyLength | internal/objects/download.go:97-104 | a partial reply's Content-Length is its body's length, Content-Range gives its first and last position and the file's size, and the body is that piece of the file |
| FileServer.PieceIsServed | internal/objects/download.go:88-104 | a request for the bytes between two positions of the file is answered with exactly them |
| FileServer.RefusedUnlessOneRange | internal/objects/download.go:75-86 | a header that does not ask for exactly one range of the file is answered 416 and with nothing of the file |
| FileServer.ResumedDownloadIsWhole | internal/objects/download.go:56-116 | for every cut of the file into consecutive ranges the bodies served for them, put together, are the body served without a header, and that is the file |
| AdminHub.StepKeepsInv | internal/admin/ws_manager.go:51-115 | every step of the dispatcher, of connecting, of the pumps and of the broadcasters keeps the hub's invariant |
| AdminHub.RunKeepsInv | internal/admin/ws_manager.go:51-206 | the same over every run |
| AdminHub.GapFree | internal/admin/ws_manager.go:51-65 | what `run` put into a connection's channel is a contiguous slice of the dequeued messages from its registration to its removal, at most one snapshot besides, taken in order by its pump |
| AdminHub.TakenIsGapFree | internal/admin/ws_manager.go:51-65 | so is what its pump has taken, from its registration on |
| AdminHub.AcceptedInOrder | internal/admin/ws_manager.go:136-141 | messages accepted into `broadcast` are dequeued in order, none lost |
| AdminHub.NeverSendsOnClosed | internal/admin/ws_manager.go:55-62 | `run` closes a channel at most once and never meets one it has closed |
| AdminHub.DeviceListIsDelivered | internal/admin/ws_manager.go:111-114 | in every run a connection whose device list met an open channel with room has it, and only it, in its channel; one whose channel was full or closed never gets any |
| AdminHub.PumpsStart | internal/admin/ws_manager.go:86-89 | the pumps start, with or without a device list, unless sending it has panicked |
| AdminHub.SnapshotPanicsExactly | internal/admin/ws_manager.go:81-86 | in every run, sendDeviceList hits a closed channel if and only if the fan-out has come to its connection more than 256 times since registration |
| AdminHub.SnapshotCanPanic | internal/admin/ws_manager.go:111-114 | some run sends the snapshot on a closed channel |
| AdminHubManager.DispatchIsRun | internal/admin/ws_manager.go:52-64 | a whole round of `run`, for any set of connections, is a run of the step machine |
| AdminHubManager.Hub.RunOnce | internal/admin/ws_manager.go:52-64 | one round gives the oldest message to every connection with room and closes and drops exactly the others |
| AdminHubManager.FannedIsDispatched | internal/admin/ws_manager.go:55-62 | connection by connection: with room the message is last in its channel, without it is closed and gone, and connections outside the map are untouched |
| AdminHubManager.Hub.FanOut | internal/admin/ws_manager.go:55-62 | the loop over the connections, in any order, does that |
| AdminHubManager.Hub.Broadcast | internal/admin/ws_manager.go:136-141 | accepted exactly when there is room; then it is last in line |
| AdminHubManager.Hub.Register | internal/admin/ws_manager.go:75-83 | is the connecting step; the connection has an empty channel |
| AdminHubManager.Hub.SendDeviceList | internal/admin/ws_manager.go:93-115 | is the snapshot step; panics exactly when the channel was closed; else the list is last in the channel if there was room, and a full channel stays as it was |
| AdminHubManager.Hub.Remove | internal/admin/ws_manager.go:197-202 | is the leaving step; the connection leaves the map, its channel stays as it is |
| DirectoryWalk.IsDirectoryEmpty | internal/mcp/tools.go:520-574 | the recursive loop with early exits gives the verdict of the first event in walk order, and "empty" only after listing every directory |
| DirectoryWalk.EventsMeanTree | internal/mcp/tools.go:547-570 | files and failures met by the walk are exactly those of the tree |
| DirectoryWalk.TreesAreReadWhole | internal/mcp/tools.go:547-570 | a file, or a failed listing, counts at any depth and in any place |
| DirectoryWalk.VerdictIsAboutTree | internal/mcp/tools.go:519-574 | empty if and only if every directory was listed and none holds a file; not empty without error only when a file exists; an error only when some listing failed with it |
| PathPolicy.IsPathAllowed | internal/mcp/tools.go:695-710 | allowed if and only if there is no ".." and some root's components lead the names the path writes out |
| PathPolicy.ComponentsAreNames | internal/mcp/tools.go:700 | without ".." cleaning leaves exactly the names written out, in order and as often |
| PathPolicy.ParentCancels | internal/mcp/tools.go:703 | in a root, a name and the ".." after it cancel, wherever they stand |
| PathPolicy.LeadingParent | internal/mcp/tools.go:703 | a leading ".." vanishes from an absolute root and stays in a relative one |
| PathPolicy.NothingPushed | internal/mcp/tools.go:700-703 | empty parts and "." do nothing, wherever they stand |
| PathPolicy.WrittenPathIsRead | internal/mcp/tools.go:700-703 | a path made of names is read back name by name and is clean already |
| PathPolicy.DotsAreSeen | internal/mcp/tools.go:696 | two dots in a row are seen anywhere, and only they |
| PathPolicy.BarePathsAreCleaned | internal/mcp/tools.go:700-703 | the empty path and "." clean to ".", and "/" to itself |
| PathPolicy.CoversIsPrefixOfSplit | internal/mcp/tools.go:704 | for all strings the string test at a separator boundary is the list-prefix test on components |
| PathPolicy.CoversIsContains | internal/mcp/tools.go:700-706 | the same on cleaned paths, in terms of the components the originals stand for |
| PathPolicy.SplitOfClean | internal/mcp/tools.go:700-703 | splitting a cleaned path gives the components the original stands for |
| PathPolicy.AllowedPathDoesNotClimb | internal/mcp/tools.go:696-700 | a path that passes the ".." test has no ".." component after cleaning |
| PathPolicy.TestIsContainmentUnlessBare | internal/mcp/tools.go:703-706 | the test agrees with containment if and only if the root has components, or the path has none, or only one of them is absolute |

## Left out

- Response timestamps, and the JSON encoding of requests and responses; a response's third shape is modelled by the outcome of its decoding.
- Parent contexts appear as steps that may cancel a call at any time; sendToDevice succeeds or fails freely.
- HandleResponse looks a response up by request id alone; which device sent it is not checked in the source and is not claimed here.
- GetPendingRequest, GetPendingRequestsForDevice and GetPendingCount: they only read the map.
- RpcTheorems.EveryFairRunReturns: a Call whose sendToDevice never returns has no fair schedule, see the assumptions.
- The frame handlers' lookup of the RPC manager and their logging; hello, heartbeat and progress frames reach no pending request.
- Device connections (takeover, close, deadlines, ping and pong) and WebSocket traffic.
- AdminHub.StepKeepsInv: `run` writes the connection map under a read lock; the model takes its fan-out as exclusive against other holders of the lock, so a data race with GetConnectionCount or another reader is outside it.
- The pumps' socket writes and the end of writePump: what happens to a message after it was taken from the channel.
- UploadProtocol.StepKeepsInv: files are named by path and a removed name loses its content; writes through a handle whose file was renamed away by a second upload are outside it, which one uploader per object never meets and the exhibited run of two uploaders ends before.
- ObjectStorage.Storage.HandleUpload: the deferred removal of the temp file does not fail, and a failing write writes nothing of its read. FileSize + 1 is unbounded, as the configured maximum keeps it far from 2^63.
- Creating and updating times of rows, listing of objects, upload progress, the free-form columns of a row.
- Retention.StepKeepsIffInOrder: uploads, deletions by DeleteObject and the reading of a download are single steps; an object taken away by DeleteObject does not count as lost.
- ZIP service, request validation, HTTP routing and headers, the text of a 416 reply, read errors while a file is being sent.
- In uploadFile, fetching the file's size from the device and making the row come before the modelled part; waiting is a finite sequence of looks.
- In the tree walk the device's replies form a finite tree that does not change during the walk; links that make directories contain themselves are outside it.
- Header text is a sequence of characters; bytes that are not valid UTF-8 are outside it.
- Rate and concurrency limiters, the audit queue, configuration, device registry and name lookup.
