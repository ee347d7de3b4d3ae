/** `HandleDownload` of internal/objects/api.go, and what a client gets from upload to download. */
module Download {
  import opened Wrappers
  import opened ObjectStore
  import opened ObjectStorage
  import opened RetentionProtocol
  import opened Retention
  import opened FileServer

  /** The two routes: by download token, and by object id. */
  datatype Request = ByToken(token: Token) | ByObject(id: ObjectID)

  datatype DownloadError = BadToken | ObjectNotFound | ServeFailed(error: ServeError)

  /** File sizes are int64 values. */
  ghost predicate AllSized(files: Files) {
    forall p :: p in files ==> Sized(files[p])
  }

  /** The file a request leads to; None when the object has none. */
  function Target(s: State, request: Request): Result<Option<Bytes>, DownloadError> {
    if request.ByToken? && !Accepted(s, request.token) then Err(BadToken)
    else
      var id := if request.ByToken? then ObjectOf(s.tokens[request.token]) else request.id;
      if id !in s.rows then Err(ObjectNotFound)
      else if s.rows[id].storagePath in s.files then Ok(Some(s.files[s.rows[id].storagePath]))
      else Ok(None)
  }

  method HandleDownload(s: State, request: Request, rangeHeader: string)
    returns (reply: Option<Reply>, error: Option<DownloadError>)
    requires AllSized(s.files)
    ensures Target(s, request).Err? ==> reply.None? && error == Some(Target(s, request).error)
    ensures Target(s, request).Ok? ==> reply == ReplyTo(Target(s, request).value, rangeHeader)
    ensures error.None? <==> reply.Some? && reply.value.status != STATUS_NOT_SATISFIABLE
  {
    var objectID;
    match request {
      case ByToken(token) =>
        if !Accepted(s, token) {
          return None, Some(BadToken);
        }
        objectID := ObjectOf(s.tokens[token]);
      case ByObject(id) =>
        objectID := id;
    }
    if objectID !in s.rows {
      return None, Some(ObjectNotFound);
    }
    var path := s.rows[objectID].storagePath;
    var file := if path in s.files then Some(s.files[path]) else None;
    var serveError;
    reply, serveError := ServeFile(file, rangeHeader);
    error := if serveError.Some? then Some(ServeFailed(serveError.value)) else None;
  }

  /** What a client gets when a request leads to this content: all of it, or the piece asked for. */
  ghost predicate Serves(s: State, request: Request, content: Bytes) {
    && Sized(content) && Target(s, request) == Ok(Some(content))
    && ReplyTo(Target(s, request).value, "") == Some(Reply(200, Some(Size(content)), None, content))
    && (forall from: nat, to: nat :: from < to <= |content| ==>
          var reply := ReplyTo(Target(s, request).value, HeaderFor(from, to));
          reply.Some? && reply.value.status == 206 && reply.value.body == content[from..to])
  }

  lemma TargetIsServed(s: State, request: Request, content: Bytes)
    requires Sized(content) && Target(s, request) == Ok(Some(content))
    ensures Serves(s, request, content)
  {
    forall from: nat, to: nat | from < to <= |content|
      ensures var reply := ReplyTo(Some(content), HeaderFor(from, to));
              reply.Some? && reply.value.status == 206 && reply.value.body == content[from..to]
    {
      PieceIsServed(content, from, to);
    }
  }

  /** By object id the same file is found as by a token for it, and no token is asked for. */
  lemma ByObjectIsByToken(s: State, token: Token)
    requires Accepted(s, token)
    ensures Target(s, ByObject(ObjectOf(s.tokens[token]))) == Target(s, ByToken(token))
  {
  }

  /** Refused: a token that is not in the table or has expired, and an object without a row. */
  lemma RefusedExactly(s: State, token: Token, id: ObjectID)
    ensures Target(s, ByToken(token)) == Err(BadToken) <==> token !in s.tokens || s.tokens[token].expiresAt < s.now
    ensures token in s.tokens && s.now <= s.tokens[token].expiresAt ==>
              (Target(s, ByToken(token)) == Err(ObjectNotFound) <==> ObjectOf(s.tokens[token]) !in s.rows)
    ensures Target(s, ByObject(id)).Err? <==> id !in s.rows
  {
  }

  // ---------------------------------------------------------------- the content stays

  /** As long as the object has a row and no cleanup has taken anything, it takes no upload and its file is this one. */
  predicate Holds(s: State, id: ObjectID, bytes: Bytes) {
    && id in s.issued
    && (id in s.rows && id !in s.collected ==>
          !Uploadable(s.rows[id].status) && StoragePath(id) in s.files && s.files[StoragePath(id)] == bytes)
  }

  /** An upload leaves row and file of every object that takes none. */
  lemma UploadLeavesOthers(rows: Rows, files: Files, id: ObjectID, other: ObjectID, bytes: Bytes, clean: bool,
                           digest: Digest, now: int)
    requires RowsOk(rows) && other in rows && !Uploadable(rows[other].status) && StoragePath(other) in files
    ensures var after := AfterUpload(rows, files, id, bytes, clean, digest, now);
            && other in after.rows && after.rows[other] == rows[other]
            && StoragePath(other) in after.files && after.files[StoragePath(other)] == files[StoragePath(other)]
  {
    if id in rows {
      PathsAreApart(id, other, StoragePath(id), "");
    }
  }

  /** Removing one object's file leaves another one's. */
  lemma RemovalLeavesOthers(files: Files, id: ObjectID, other: ObjectID)
    requires IsID(id) && IsID(other) && id != other && StoragePath(other) in files
    ensures var after := Without(files, StoragePath(id));
            StoragePath(other) in after && after[StoragePath(other)] == files[StoragePath(other)]
  {
    PathsAreApart(id, other, "", "");
  }

  lemma CollectionKeepsContent(s: State, step: Step, id: ObjectID, bytes: Bytes)
    requires Books(s) && Holds(s, id, bytes) && Enabled(s, step) && (step.CollectFile? || step.CollectRow?)
    ensures Holds(Apply(s, step), id, bytes)
  {
    if step.CollectFile? && step.id != id && id in s.rows && id !in s.collected {
      assert Doomed(s.sweeps, step.id);
      RemovalLeavesOthers(s.files, step.id, id);
    }
  }

  lemma UploadKeepsContent(s: State, step: Step, id: ObjectID, bytes: Bytes)
    requires Books(s) && Holds(s, id, bytes) && Enabled(s, step) && (step.Upload? || step.DeleteObject?)
    ensures Holds(Apply(s, step), id, bytes)
  {
    if id in s.rows && id !in s.collected {
      if step.Upload? {
        UploadLeavesOthers(s.rows, s.files, step.id, id, step.bytes, step.clean, step.digest, s.now);
      } else if step.id in s.rows && step.id != id {
        RemovalLeavesOthers(s.files, step.id, id);
      }
    }
  }

  lemma OtherStepKeepsContent(s: State, step: Step, id: ObjectID, bytes: Bytes)
    requires Holds(s, id, bytes) && Enabled(s, step)
    requires !step.Upload? && !step.DeleteObject? && !step.CollectFile? && !step.CollectRow?
    ensures Holds(Apply(s, step), id, bytes)
  {
  }

  lemma StepKeepsContent(s: State, step: Step, id: ObjectID, bytes: Bytes)
    requires Books(s) && Holds(s, id, bytes) && Enabled(s, step)
    ensures Holds(Apply(s, step), id, bytes)
  {
    if step.CollectFile? || step.CollectRow? {
      CollectionKeepsContent(s, step, id, bytes);
    } else if step.Upload? || step.DeleteObject? {
      UploadKeepsContent(s, step, id, bytes);
    } else {
      OtherStepKeepsContent(s, step, id, bytes);
    }
  }

  lemma {:induction false} RunKeepsContent(s: State, steps: seq<Step>, id: ObjectID, bytes: Bytes)
    requires Books(s) && Holds(s, id, bytes) && CanRun(s, steps)
    ensures Holds(Run(s, steps), id, bytes)
    decreases |steps|
  {
    if steps != [] {
      StepKeepsBooks(s, steps[0]);
      StepKeepsContent(s, steps[0], id, bytes);
      RunKeepsContent(Apply(s, steps[0]), steps[1..], id, bytes);
    }
  }

  // ---------------------------------------------------------------- the token stays good

  /** A token that has been handed out for an object that is there, whole. */
  predicate Good(s: State, k: Token, e: TokenEntry) {
    k in s.tokens && s.tokens[k] == e && k !in s.owed && ObjectOf(e) in s.rows && ObjectOf(e) !in s.collected
  }

  lemma CollectionKeepsGood(s: State, step: Step, k: Token, e: TokenEntry)
    requires Kept(s) && Enabled(s, step) && Good(s, k, e) && s.now <= e.expiresAt
    requires step.CollectFile? || step.CollectRow?
    ensures Good(Apply(s, step), k, e)
  {
    assert Accepted(s, k) && Spared(s, ObjectOf(e));
    var id := if step.CollectFile? then step.id else s.sweeps[step.g].clearing.value;
    assert Doomed(s.sweeps, id);
  }

  lemma StepKeepsGood(s: State, step: Step, k: Token, e: TokenEntry)
    requires Kept(s) && Enabled(s, step) && Good(s, k, e) && Apply(s, step).now <= e.expiresAt
    requires step != DeleteObject(ObjectOf(e)) && step != RevokeToken(k)
    ensures Good(Apply(s, step), k, e)
  {
    ClockNeverGoesBack(s, step);
    if step.CollectFile? || step.CollectRow? {
      CollectionKeepsGood(s, step, k, e);
    }
  }

  lemma {:induction false} RunKeepsGood(s: State, steps: seq<Step>, k: Token, e: TokenEntry)
    requires Books(s) && Kept(s) && CanRun(s, steps) && AlwaysInOrder(s, steps)
    requires Good(s, k, e) && Run(s, steps).now <= e.expiresAt
    requires DeleteObject(ObjectOf(e)) !in steps && RevokeToken(k) !in steps
    ensures Good(Run(s, steps), k, e)
    decreases |steps|
  {
    if steps != [] {
      RunClockNeverGoesBack(Apply(s, steps[0]), steps[1..]);
      StepKeepsBooks(s, steps[0]);
      StepKeepsIffInOrder(s, steps[0]);
      StepKeepsGood(s, steps[0], k, e);
      RunKeepsGood(Apply(s, steps[0]), steps[1..], k, e);
    }
  }

  // ---------------------------------------------------------------- from upload to download

  lemma AcceptedHolds(s: State, id: ObjectID, bytes: Bytes, clean: bool, digest: Digest)
    requires IdsOk(s) && id in s.rows && Uploadable(s.rows[id].status)
    requires Complete(Apply(s, Upload(id, bytes, clean, digest)).rows, id)
    ensures Holds(Apply(s, Upload(id, bytes, clean, digest)), id, bytes)
  {
    PathsAreApart(id, id, StoragePath(id), "");
  }

  /** The state after an upload that follows the steps of `before`. */
  function Uploaded(now: int, before: seq<Step>, id: ObjectID, bytes: Bytes, clean: bool, digest: Digest): State
    requires CanRun(Initial(now), before)
  {
    Apply(Run(Initial(now), before), Upload(id, bytes, clean, digest))
  }

  lemma UploadedHolds(now: int, before: seq<Step>, id: ObjectID, bytes: Bytes, clean: bool, digest: Digest)
    requires CanRun(Initial(now), before) && AlwaysInOrder(Initial(now), before)
    requires var s := Run(Initial(now), before); id in s.rows && Uploadable(s.rows[id].status)
    requires Complete(Uploaded(now, before, id, bytes, clean, digest).rows, id)
    ensures var t := Uploaded(now, before, id, bytes, clean, digest); Books(t) && Kept(t) && Holds(t, id, bytes)
  {
    var s := Run(Initial(now), before);
    RetentionIffInOrder(Initial(now), before);
    AcceptedHolds(s, id, bytes, clean, digest);
    StepKeepsBooks(s, Upload(id, bytes, clean, digest));
    UploadKeeps(s, id, bytes, clean, digest);
  }

  /** A token that has been handed out for an object with a row is good: no cleanup has taken anything of it. */
  lemma HandedOutIsGood(s: State, token: Token)
    requires Books(s) && Kept(s) && HandedOut(s, token) && ObjectOf(s.tokens[token]) in s.rows
    ensures Good(s, token, s.tokens[token])
  {
  }

  lemma GoodIsServed(s: State, token: Token, e: TokenEntry, bytes: Bytes)
    requires Books(s) && Good(s, token, e) && s.now <= e.expiresAt && Holds(s, ObjectOf(e), bytes) && Sized(bytes)
    ensures Serves(s, ByToken(token), bytes) && Serves(s, ByObject(ObjectOf(e)), bytes)
  {
    TargetIsServed(s, ByToken(token), bytes);
    TargetIsServed(s, ByObject(ObjectOf(e)), bytes);
  }

  /** From the moment the token is handed out. */
  lemma HandedOutIsServed(s: State, later: seq<Step>, token: Token, bytes: Bytes)
    requires Books(s) && Kept(s) && HandedOut(s, token) && ObjectOf(s.tokens[token]) in s.rows
    requires Holds(s, ObjectOf(s.tokens[token]), bytes) && CanRun(s, later) && AlwaysInOrder(s, later)
    requires DeleteObject(ObjectOf(s.tokens[token])) !in later && RevokeToken(token) !in later
    requires Run(s, later).now <= s.tokens[token].expiresAt && Sized(bytes)
    ensures Serves(Run(s, later), ByToken(token), bytes)
    ensures Serves(Run(s, later), ByObject(ObjectOf(s.tokens[token])), bytes)
  {
    var e := s.tokens[token];
    HandedOutIsGood(s, token);
    RunKeepsContent(s, later, ObjectOf(e), bytes);
    RunKeepsGood(s, later, token, e);
    RunKeepsBooks(s, later);
    GoodIsServed(Run(s, later), token, e, bytes);
  }

  /**
   What a client downloads is what the device uploaded. Over all runs whose steps are in order: when an upload of an
   object has been accepted and a token for it handed out later, then until the token expires, and unless the object
   is deleted or the token revoked, a request with it, or by the object's id, is answered with exactly the uploaded
   bytes, or the piece of them asked for, whatever other uploads, requests, deletions and cleanups there are in
   between, half way or whole.
   */
  lemma DownloadIsUpload(now: int, before: seq<Step>, id: ObjectID, bytes: Bytes, clean: bool, digest: Digest,
                         between: seq<Step>, token: Token, later: seq<Step>)
    requires CanRun(Initial(now), before) && AlwaysInOrder(Initial(now), before)
    requires var s := Run(Initial(now), before); id in s.rows && Uploadable(s.rows[id].status)
    requires var s := Uploaded(now, before, id, bytes, clean, digest);
             Complete(s.rows, id) && CanRun(s, between) && AlwaysInOrder(s, between)
    requires var s := Run(Uploaded(now, before, id, bytes, clean, digest), between);
             && HandedOut(s, token) && ObjectOf(s.tokens[token]) == id && id in s.rows
             && CanRun(s, later) && AlwaysInOrder(s, later)
             && DeleteObject(id) !in later && RevokeToken(token) !in later
             && Run(s, later).now <= s.tokens[token].expiresAt && Sized(bytes)
    ensures var s := Run(Uploaded(now, before, id, bytes, clean, digest), between);
            Serves(Run(s, later), ByToken(token), bytes) && Serves(Run(s, later), ByObject(id), bytes)
  {
    var s := Uploaded(now, before, id, bytes, clean, digest);
    UploadedHolds(now, before, id, bytes, clean, digest);
    RetentionIffInOrder(s, between);
    RunKeepsContent(s, between, id, bytes);
    HandedOutIsServed(Run(s, between), later, token, bytes);
  }
}
