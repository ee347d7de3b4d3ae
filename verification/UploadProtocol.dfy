/**
 HandleUpload, CancelUpload, DeleteObject and late status updates as a step machine
 (internal/objects/upload.go, storage.go): each step is one database statement, one file operation
 or one read of the stream, and any of them may fail where the source checks for failure.
 */
module UploadProtocol {
  import opened Wrappers
  import opened ObjectStore

  /** How a stream ends once its bytes are used up: cleanly, or with a read error. */
  datatype Stream = Stream(bytes: Bytes, clean: bool)

  /** `discard` says whether the deferred function will find err set and remove the temp file. */
  datatype Phase =
    | Checked
    | Marked
    | Located
    | Copying
    | Copied
    | Verified
    | Renamed
    | Failing(discard: bool)
    | Closing(discard: bool, success: bool)
    | Done(success: bool)

  /** One HandleUpload: the row it read at its start, its stream, and the bytes that went through its tee. */
  datatype Upload = Upload(id: ObjectID, fileSize: int, sha256: string, stream: Stream,
                           path: Path, written: Bytes, phase: Phase)

  datatype Cancel = Cancel(id: ObjectID, path: Path, located: bool, removed: bool)

  datatype Deletion = Deletion(id: ObjectID, path: Path)

  /**
   `issued` are all object ids ever made, `deleting` those a deletion or garbage collection has begun on.
   */
  datatype State = State(digest: Digest, rows: Rows, files: Files,
                         uploads: map<nat, Upload>, cancels: map<nat, Cancel>, deletions: map<nat, Deletion>,
                         issued: set<ObjectID>, deleting: set<ObjectID>)

  datatype Step =
    | InitUpload(id: ObjectID, fileSize: int, sha256: string)
      // HandleUpload; `ok` is whether the operation itself succeeds, `found` whether the path's own query does
    | BeginUpload(u: nat, id: ObjectID, stream: Stream)
    | MarkUploading(u: nat, ok: bool)
    | Locate(u: nat, ok: bool, found: bool)
    | CreateTemp(u: nat, ok: bool)
    | CopyChunk(u: nat, n: nat, ok: bool)
    | EndCopy(u: nat)
    | CloseTemp(u: nat, ok: bool)
    | Rename(u: nat, ok: bool)
    | MarkCompleted(u: nat, now: int, ok: bool)
    | MarkFailed(u: nat, ok: bool)
    | CloseUpload(u: nat)
      // CancelUpload
    | BeginCancel(c: nat, id: ObjectID)
    | LocateCancel(c: nat, found: bool)
    | RemoveTemp(c: nat)
    | MarkCancelled(c: nat, ok: bool)
      // UpdateObjectStatus(failed) of uploadFile and RequestZip, at any time
    | LateFailure(id: ObjectID)
      // DeleteObject and each round of CleanupExpiredObjects
    | BeginDelete(d: nat, id: ObjectID)
    | DeleteFile(d: nat, ok: bool)
    | DeleteRow(d: nat, ok: bool)

  /** The most io.CopyN takes from the stream: one byte more than announced. */
  function Limit(u: Upload): int {
    u.fileSize + 1
  }

  predicate InPhase(s: State, u: nat, phase: Phase) {
    u in s.uploads && s.uploads[u].phase == phase
  }

  predicate CanCopy(u: Upload, n: nat) {
    0 < n && |u.written| + n <= Limit(u) && |u.written| + n <= |u.stream.bytes|
  }

  /** What a read of `n` bytes returns. */
  function Chunk(up: Upload, n: nat): Bytes
    requires CanCopy(up, n)
  {
    up.stream.bytes[|up.written|..|up.written| + n]
  }

  predicate Enabled(s: State, step: Step) {
    match step
    case InitUpload(id, _, _) => IsID(id) && id !in s.issued
    case BeginUpload(u, _, _) => u !in s.uploads
    case MarkUploading(u, _) => InPhase(s, u, Checked)
    case Locate(u, _, _) => InPhase(s, u, Marked)
    case CreateTemp(u, _) => InPhase(s, u, Located)
    case CopyChunk(u, n, _) => InPhase(s, u, Copying) && CanCopy(s.uploads[u], n)
    case EndCopy(u) =>
      InPhase(s, u, Copying)
      && (Limit(s.uploads[u]) <= |s.uploads[u].written| || |s.uploads[u].written| == |s.uploads[u].stream.bytes|)
    case CloseTemp(u, _) => InPhase(s, u, Copied)
    case Rename(u, _) => InPhase(s, u, Verified)
    case MarkCompleted(u, _, _) => InPhase(s, u, Renamed)
    case MarkFailed(u, _) => u in s.uploads && s.uploads[u].phase.Failing?
    case CloseUpload(u) => u in s.uploads && s.uploads[u].phase.Closing?
    case BeginCancel(c, id) => c !in s.cancels && id in s.rows && Uploadable(s.rows[id].status)
    case LocateCancel(c, _) => c in s.cancels && !s.cancels[c].located
    case RemoveTemp(c) => c in s.cancels && s.cancels[c].located && !s.cancels[c].removed
    case MarkCancelled(c, _) => c in s.cancels && s.cancels[c].removed
    case LateFailure(_) => true
    case BeginDelete(d, id) => d !in s.deletions && id in s.rows
    case DeleteFile(d, _) => d in s.deletions
    case DeleteRow(d, _) => d in s.deletions
  }

  function At(s: State, u: nat, phase: Phase): State
    requires u in s.uploads
  {
    s.(uploads := s.uploads[u := s.uploads[u].(phase := phase)])
  }

  function Begin(s: State, id: ObjectID, stream: Stream): Upload {
    if id in s.rows && Uploadable(s.rows[id].status) then
      Upload(id, s.rows[id].fileSize, s.rows[id].sha256, stream, "", [], Checked)
    else
      Upload(id, 0, "", stream, "", [], Done(false))
  }

  /** GetStoragePath: "" when its query finds no row, or fails. */
  function PathFound(rows: Rows, id: ObjectID, found: bool): Path {
    if found then LookupPath(rows, id) else ""
  }

  /** What io.CopyN's outcome and the size test lead to. */
  function AfterCopy(u: Upload): Phase {
    if |u.written| < Limit(u) && !u.stream.clean then Failing(true)       // read error
    // Too short leaves io.EOF in err, too long nil.
    else if |u.written| != u.fileSize then Failing(|u.written| < Limit(u))
    else Copied
  }

  /** Writing through the open handle reaches the file as long as its name has not been removed. */
  function AppendTo(files: Files, path: Path, bytes: Bytes): Files {
    if path in files then files[path := files[path] + bytes] else files
  }

  function Apply(s: State, step: Step): State
    requires Enabled(s, step)
  {
    match step
    case InitUpload(id, fileSize, sha256) =>
      s.(rows := s.rows[id := NewRow(id, fileSize, sha256)], issued := s.issued + {id})
    case BeginUpload(u, id, stream) => s.(uploads := s.uploads[u := Begin(s, id, stream)])
    case MarkUploading(u, ok) =>
      var id := s.uploads[u].id;
      if ok && id in s.rows then At(s, u, Marked).(rows := WithStatus(s.rows, id, Uploading, 0))
      else At(s, u, Done(false))
    case Locate(u, ok, found) =>
      if !ok then At(s, u, Failing(false))
      else
        var path := PathFound(s.rows, s.uploads[u].id, found);
        s.(uploads := s.uploads[u := s.uploads[u].(path := path, phase := Located)])
    case CreateTemp(u, ok) =>
      if !ok then At(s, u, Failing(false))
      else At(s, u, Copying).(files := s.files[Temp(s.uploads[u].path) := []])
    case CopyChunk(u, n, ok) => ApplyChunk(s, u, n, ok)
    case EndCopy(u) => At(s, u, AfterCopy(s.uploads[u]))
    case CloseTemp(u, ok) =>
      var up := s.uploads[u];
      At(s, u, if ok && (up.sha256 == "" || up.sha256 == s.digest(up.written)) then Verified else Failing(true))
    case Rename(u, ok) => ApplyRename(s, u, ok)
    case MarkCompleted(u, now, ok) =>
      var id := s.uploads[u].id;
      if ok && id in s.rows then At(s, u, Closing(true, true)).(rows := WithStatus(s.rows, id, Completed, now))
      else At(s, u, Closing(true, false))
    case MarkFailed(u, ok) =>
      At(s, u, Closing(s.uploads[u].phase.discard, false))
        .(rows := if ok then WithStatus(s.rows, s.uploads[u].id, Failed, 0) else s.rows)
    case CloseUpload(u) =>
      At(s, u, Done(s.uploads[u].phase.success))
        .(files := if s.uploads[u].phase.discard then Without(s.files, Temp(s.uploads[u].path)) else s.files)
    case BeginCancel(c, id) => s.(cancels := s.cancels[c := Cancel(id, "", false, false)])
    case LocateCancel(c, found) =>
      s.(cancels := s.cancels[c := s.cancels[c].(path := PathFound(s.rows, s.cancels[c].id, found), located := true)])
    case RemoveTemp(c) =>
      s.(files := Without(s.files, Temp(s.cancels[c].path)), cancels := s.cancels[c := s.cancels[c].(removed := true)])
    case MarkCancelled(c, ok) => s.(rows := if ok then WithStatus(s.rows, s.cancels[c].id, Failed, 0) else s.rows)
    case LateFailure(id) => s.(rows := WithStatus(s.rows, id, Failed, 0))
    case BeginDelete(d, id) =>
      s.(deletions := s.deletions[d := Deletion(id, s.rows[id].storagePath)], deleting := s.deleting + {id})
    case DeleteFile(d, ok) => s.(files := if ok then Without(s.files, s.deletions[d].path) else s.files)
    case DeleteRow(d, ok) => s.(rows := if ok then Without(s.rows, s.deletions[d].id) else s.rows)
  }

  /** One read of the stream, seen by the hasher, and its write to the temp file, which may fail. */
  function ApplyChunk(s: State, u: nat, n: nat, ok: bool): State
    requires Enabled(s, CopyChunk(u, n, ok))
  {
    var up := s.uploads[u];
    var chunk := Chunk(up, n);
    if !ok then At(s, u, Failing(true))
    else
      s.(files := AppendTo(s.files, Temp(up.path), chunk),
         uploads := s.uploads[u := up.(written := up.written + chunk)])
  }

  /** os.Rename fails when the temp file is gone and when there is no target path. */
  function ApplyRename(s: State, u: nat, ok: bool): State
    requires Enabled(s, Rename(u, ok))
  {
    var path := s.uploads[u].path;
    if ok && path != "" && Temp(path) in s.files then
      At(s, u, Renamed).(files := Without(s.files[path := s.files[Temp(path)]], Temp(path)))
    else At(s, u, Failing(true))
  }

  function Initial(digest: Digest): State {
    State(digest, map[], map[], map[], map[], map[], {}, {})
  }

  predicate CanRun(s: State, steps: seq<Step>)
    decreases |steps|
  {
    steps == [] || (Enabled(s, steps[0]) && CanRun(Apply(s, steps[0]), steps[1..]))
  }

  function Run(s: State, steps: seq<Step>): State
    requires CanRun(s, steps)
    decreases |steps|
  {
    if steps == [] then s else Run(Apply(s, steps[0]), steps[1..])
  }

  // ---------------------------------------------------------------- one uploader per object

  predicate InFlight(s: State, u: nat) {
    u in s.uploads && !s.uploads[u].phase.Done?
  }

  /** No upload of an object begins while another one of the same object is in flight. */
  ghost predicate OneUploader(s: State, step: Step) {
    step.BeginUpload? ==> forall u :: InFlight(s, u) ==> s.uploads[u].id != step.id
  }

  ghost predicate OneUploaderRun(s: State, steps: seq<Step>)
    requires CanRun(s, steps)
    decreases |steps|
  {
    steps != [] ==> OneUploader(s, steps[0]) && OneUploaderRun(Apply(s, steps[0]), steps[1..])
  }

  // ---------------------------------------------------------------- invariant

  predicate Stored(s: State, path: Path, fileSize: int, sha256: string) {
    path in s.files && Matches(s.files[path], fileSize, sha256, s.digest)
  }

  /** A row that says completed has its file, unless a deletion has begun on it. */
  ghost predicate CompletedStored(s: State) {
    forall id :: id in s.rows && s.rows[id].status == Completed && id !in s.deleting ==>
      Stored(s, s.rows[id].storagePath, s.rows[id].fileSize, s.rows[id].sha256)
  }

  predicate HasTemp(phase: Phase) {
    phase.Copying? || phase.Copied? || phase.Verified?
  }

  /** The temp file, while it is there, holds what the upload has written. */
  predicate TempFits(up: Upload, files: Files) {
    HasTemp(up.phase) && up.path != "" && Temp(up.path) in files ==> files[Temp(up.path)] == up.written
  }

  predicate UploadOk(s: State, up: Upload) {
    && IsID(up.id) && PathOf(up.path, up.id) && up.id in s.issued
    && (up.id in s.rows ==> s.rows[up.id].fileSize == up.fileSize && s.rows[up.id].sha256 == up.sha256)
    && (up.id in s.rows && s.rows[up.id].status == Completed ==> up.phase.Closing?)
    && TempFits(up, s.files)
    && (up.phase.Checked? || up.phase.Marked? || up.phase.Located? ==> up.written == [])
    && (up.phase.Copied? ==> |up.written| == up.fileSize)
    && (up.phase.Verified? ==> Matches(up.written, up.fileSize, up.sha256, s.digest))
    && (up.phase.Renamed? ==>
          up.path == StoragePath(up.id) && (up.id in s.deleting || Stored(s, up.path, up.fileSize, up.sha256)))
  }

  /** No other upload of the same object is in flight. */
  ghost predicate Alone(s: State, u: nat) {
    u in s.uploads && forall v :: InFlight(s, v) && s.uploads[v].id == s.uploads[u].id ==> v == u
  }

  ghost predicate Inv(s: State) {
    && RowsOk(s.rows) && s.rows.Keys <= s.issued
    && CompletedStored(s)
    && (forall u :: InFlight(s, u) ==> UploadOk(s, s.uploads[u]) && Alone(s, u))
    && (forall c :: c in s.cancels ==> IsID(s.cancels[c].id) && PathOf(s.cancels[c].path, s.cancels[c].id))
    && (forall d :: d in s.deletions ==>
          IsID(s.deletions[d].id) && s.deletions[d].path == StoragePath(s.deletions[d].id)
          && s.deletions[d].id in s.deleting)
  }

  // ---------------------------------------------------------------- preservation

  /** When no upload begins and none changes its object. */
  lemma AloneCarriesOver(s: State, t: State)
    requires forall u :: InFlight(t, u) ==> InFlight(s, u) && t.uploads[u].id == s.uploads[u].id
    ensures forall u :: InFlight(t, u) && Alone(s, u) ==> Alone(t, u)
  {
  }

  /** One upload moves on; rows, files and all other threads stay as they are. */
  lemma UploadMovesOn(s: State, u: nat, up: Upload)
    requires Inv(s) && InFlight(s, u) && up.id == s.uploads[u].id
    requires up.phase.Done? || UploadOk(s, up)
    ensures Inv(s.(uploads := s.uploads[u := up]))
  {
    var t := s.(uploads := s.uploads[u := up]);
    forall v | InFlight(t, v) ensures UploadOk(t, t.uploads[v]) {
      assert v != u ==> InFlight(s, v);
    }
    AloneCarriesOver(s, t);
  }

  /** Final files outside deletions are untouched, and temp files hold what their uploads have written. */
  ghost predicate FilesFit(s: State, files: Files) {
    && (forall id :: IsID(id) && id !in s.deleting && StoragePath(id) in s.files ==>
          StoragePath(id) in files && files[StoragePath(id)] == s.files[StoragePath(id)])
    && (forall u :: InFlight(s, u) ==> TempFits(s.uploads[u], files))
  }

  lemma FilesChangeKeepsInv(s: State, files: Files)
    requires Inv(s) && FilesFit(s, files)
    ensures Inv(s.(files := files))
  {
  }

  lemma RemovingTempFits(s: State, id: ObjectID, path: Path)
    requires Inv(s) && IsID(id) && PathOf(path, id)
    ensures FilesFit(s, Without(s.files, Temp(path)))
  {
  }

  lemma RemovingFinalFits(s: State, id: ObjectID)
    requires Inv(s) && IsID(id) && id in s.deleting
    ensures FilesFit(s, Without(s.files, StoragePath(id)))
  {
    var files := Without(s.files, StoragePath(id));
    forall k | IsID(k) && k !in s.deleting && StoragePath(k) in s.files ensures StoragePath(k) in files {
      PathsAreApart(id, k, "", "");
    }
    forall u | InFlight(s, u) ensures TempFits(s.uploads[u], files) {
      assert UploadOk(s, s.uploads[u]);
    }
  }

  /** A status other than completed can be written at any time. */
  lemma StatusChangeKeepsInv(s: State, id: ObjectID, status: Status, now: int)
    requires Inv(s)
    requires status == Completed && id in s.rows && id !in s.deleting ==>
               Stored(s, s.rows[id].storagePath, s.rows[id].fileSize, s.rows[id].sha256)
    requires status == Completed ==>
               forall u :: InFlight(s, u) && s.uploads[u].id == id ==> s.uploads[u].phase.Closing?
    ensures Inv(s.(rows := WithStatus(s.rows, id, status, now)))
  {
    var t := s.(rows := WithStatus(s.rows, id, status, now));
    assert t.rows.Keys == s.rows.Keys;
    forall u | InFlight(t, u) ensures UploadOk(t, t.uploads[u]) {
      assert InFlight(s, u) && UploadOk(s, s.uploads[u]);
    }
  }

  lemma InitKeepsInv(s: State, step: Step)
    requires Inv(s) && step.InitUpload? && Enabled(s, step)
    ensures Inv(Apply(s, step))
  {
    var t := Apply(s, step);
    forall u | InFlight(t, u) ensures UploadOk(t, t.uploads[u]) {
      assert InFlight(s, u) && UploadOk(s, s.uploads[u]);
    }
  }

  lemma BeginKeepsInv(s: State, step: Step)
    requires Inv(s) && step.BeginUpload? && Enabled(s, step) && OneUploader(s, step)
    ensures Inv(Apply(s, step))
  {
    var t := Apply(s, step);
    forall u | InFlight(t, u) ensures UploadOk(t, t.uploads[u]) {
      assert u != step.u ==> InFlight(s, u) && UploadOk(s, s.uploads[u]);
    }
    forall v | InFlight(t, v) ensures Alone(t, v) {
      assert v != step.u ==> InFlight(s, v) && Alone(s, v);
      forall w | InFlight(t, w) && t.uploads[w].id == t.uploads[v].id ensures w == v {
        assert w != step.u ==> InFlight(s, w);
      }
    }
  }

  lemma LocateKeepsInv(s: State, u: nat, ok: bool, found: bool)
    requires Inv(s) && Enabled(s, Locate(u, ok, found))
    ensures Inv(Apply(s, Locate(u, ok, found)))
  {
    var up := s.uploads[u];
    assert InFlight(s, u) && UploadOk(s, up);
    UploadMovesOn(s, u, if ok then up.(path := PathFound(s.rows, up.id, found), phase := Located)
                        else up.(phase := Failing(false)));
  }

  lemma EndCopyKeepsInv(s: State, u: nat)
    requires Inv(s) && Enabled(s, EndCopy(u))
    ensures Inv(Apply(s, EndCopy(u)))
  {
    var up := s.uploads[u];
    assert InFlight(s, u) && UploadOk(s, up);
    UploadMovesOn(s, u, up.(phase := AfterCopy(up)));
  }

  lemma CloseTempKeepsInv(s: State, u: nat, ok: bool)
    requires Inv(s) && Enabled(s, CloseTemp(u, ok))
    ensures Inv(Apply(s, CloseTemp(u, ok)))
  {
    var up := s.uploads[u];
    assert InFlight(s, u) && UploadOk(s, up);
    var passed := ok && (up.sha256 == "" || up.sha256 == s.digest(up.written));
    UploadMovesOn(s, u, up.(phase := if passed then Verified else Failing(true)));
  }

  /** An upload moves on and writes a status of its own row. */
  lemma MoveAndMark(s: State, u: nat, up: Upload, status: Status, now: int)
    requires Inv(s) && InFlight(s, u) && up.id == s.uploads[u].id && (up.phase.Done? || UploadOk(s, up))
    requires status == Completed ==> s.uploads[u].phase.Renamed? && up.phase.Closing?
    ensures Inv(s.(uploads := s.uploads[u := up], rows := WithStatus(s.rows, up.id, status, now)))
  {
    assert UploadOk(s, s.uploads[u]);
    UploadMovesOn(s, u, up);
    var moved := s.(uploads := s.uploads[u := up]);
    assert Alone(s, u);
    forall v | InFlight(moved, v) && moved.uploads[v].id == up.id ensures v == u {
      assert InFlight(s, v);
    }
    StatusChangeKeepsInv(moved, up.id, status, now);
  }

  lemma MarkUploadingKeepsInv(s: State, u: nat, ok: bool)
    requires Inv(s) && Enabled(s, MarkUploading(u, ok))
    ensures Inv(Apply(s, MarkUploading(u, ok)))
  {
    var up := s.uploads[u];
    assert InFlight(s, u) && UploadOk(s, up);
    if ok && up.id in s.rows {
      MoveAndMark(s, u, up.(phase := Marked), Uploading, 0);
    } else {
      UploadMovesOn(s, u, up.(phase := Done(false)));
    }
  }

  lemma MarkCompletedKeepsInv(s: State, u: nat, now: int, ok: bool)
    requires Inv(s) && Enabled(s, MarkCompleted(u, now, ok))
    ensures Inv(Apply(s, MarkCompleted(u, now, ok)))
  {
    var up := s.uploads[u];
    assert InFlight(s, u) && UploadOk(s, up);
    if ok && up.id in s.rows {
      MoveAndMark(s, u, up.(phase := Closing(true, true)), Completed, now);
    } else {
      UploadMovesOn(s, u, up.(phase := Closing(true, false)));
    }
  }

  lemma MarkFailedKeepsInv(s: State, u: nat, ok: bool)
    requires Inv(s) && Enabled(s, MarkFailed(u, ok))
    ensures Inv(Apply(s, MarkFailed(u, ok)))
  {
    var up := s.uploads[u];
    assert InFlight(s, u) && UploadOk(s, up);
    if ok {
      MoveAndMark(s, u, up.(phase := Closing(up.phase.discard, false)), Failed, 0);
    } else {
      UploadMovesOn(s, u, up.(phase := Closing(up.phase.discard, false)));
    }
  }

  lemma CreateKeepsInv(s: State, u: nat, ok: bool)
    requires Inv(s) && Enabled(s, CreateTemp(u, ok))
    ensures Inv(Apply(s, CreateTemp(u, ok)))
  {
    var up := s.uploads[u];
    assert InFlight(s, u) && UploadOk(s, up);
    if ok {
      // Between the two, the upload is in a phase that says nothing of its temp file.
      var files := s.files[Temp(up.path) := []];
      forall k | IsID(k) && StoragePath(k) in s.files
        ensures StoragePath(k) in files && files[StoragePath(k)] == s.files[StoragePath(k)] {
        PathsAreApart(up.id, k, up.path, "");
      }
      forall v | InFlight(s, v) ensures TempFits(s.uploads[v], files) {
        assert UploadOk(s, s.uploads[v]);
        PathsAreApart(s.uploads[v].id, up.id, s.uploads[v].path, up.path);
      }
      FilesChangeKeepsInv(s, files);
      var t := s.(files := files);
      assert UploadOk(t, up.(phase := Copying)) by {
        assert UploadOk(t, up);
      }
      UploadMovesOn(t, u, up.(phase := Copying));
    } else {
      UploadMovesOn(s, u, up.(phase := Failing(false)));
    }
  }

  /** An upload's write reaches no other upload's temp file and no object's file. */
  lemma WriteKeepsInv(s: State, u: nat, chunk: Bytes)
    requires Inv(s) && InPhase(s, u, Copying)
    ensures var up := s.uploads[u];
            Inv(s.(files := AppendTo(s.files, Temp(up.path), chunk),
                   uploads := s.uploads[u := up.(written := up.written + chunk)]))
  {
    var up := s.uploads[u];
    assert InFlight(s, u) && UploadOk(s, up);
    var t := s.(files := AppendTo(s.files, Temp(up.path), chunk),
                uploads := s.uploads[u := up.(written := up.written + chunk)]);
    forall id | id in t.rows ensures Temp(up.path) != t.rows[id].storagePath {
      PathsAreApart(up.id, id, up.path, "");
    }
    forall v | InFlight(t, v) ensures UploadOk(t, t.uploads[v]) {
      assert InFlight(s, v) && UploadOk(s, s.uploads[v]);
      PathsAreApart(s.uploads[v].id, up.id, s.uploads[v].path, up.path);
      PathsAreApart(up.id, s.uploads[v].id, up.path, "");
    }
    AloneCarriesOver(s, t);
  }

  lemma ChunkKeepsInv(s: State, u: nat, n: nat, ok: bool)
    requires Inv(s) && Enabled(s, CopyChunk(u, n, ok))
    ensures Inv(Apply(s, CopyChunk(u, n, ok)))
  {
    if ok {
      WriteKeepsInv(s, u, Chunk(s.uploads[u], n));
    } else {
      FailKeepsInv(s, u, true);
    }
  }

  /** An upload in flight may fail at any point. */
  lemma FailKeepsInv(s: State, u: nat, discard: bool)
    requires Inv(s) && InFlight(s, u) && !s.uploads[u].phase.Closing?
    ensures Inv(At(s, u, Failing(discard)))
  {
    assert UploadOk(s, s.uploads[u]);
    UploadMovesOn(s, u, s.uploads[u].(phase := Failing(discard)));
  }

  lemma RenameKeepsInv(s: State, u: nat, ok: bool)
    requires Inv(s) && Enabled(s, Rename(u, ok))
    ensures Inv(Apply(s, Rename(u, ok)))
  {
    FailKeepsInv(s, u, true);
    if ok && s.uploads[u].path != "" && Temp(s.uploads[u].path) in s.files {
      GoodRenameKeepsInv(s, u);
    }
  }

  lemma GoodRenameKeepsInv(s: State, u: nat)
    requires Inv(s) && InPhase(s, u, Verified) && s.uploads[u].path != "" && Temp(s.uploads[u].path) in s.files
    requires Inv(At(s, u, Failing(true)))
    ensures var up := s.uploads[u];
            Inv(At(s, u, Renamed).(files := Without(s.files[up.path := s.files[Temp(up.path)]], Temp(up.path))))
  {
    var up := s.uploads[u];
    assert InFlight(s, u) && UploadOk(s, up);
    var paused := At(s, u, Failing(true));
    RenamedFilesKeepInv(paused, up.id, s.files[Temp(up.path)], up.fileSize, up.sha256);
    var t := paused.(files := Without(s.files[up.path := s.files[Temp(up.path)]], Temp(up.path)));
    assert InFlight(t, u);
    PathsAreApart(up.id, up.id, up.path, "");
    RenamedIsOk(t, up);
    UploadMovesOn(t, u, up.(phase := Renamed));
    assert t.uploads[u := up.(phase := Renamed)] == At(s, u, Renamed).uploads;
  }

  lemma RenamedIsOk(t: State, up: Upload)
    requires up.phase.Verified? && UploadOk(t, up.(phase := Failing(true))) && up.path != ""
    requires up.path in t.files && Matches(t.files[up.path], up.fileSize, up.sha256, t.digest)
    ensures UploadOk(t, up.(phase := Renamed))
  {
  }

  /** Putting matching content under an object's path keeps whatever was promised of that path. */
  lemma RenamedFilesKeepInv(s: State, id: ObjectID, content: Bytes, fileSize: int, sha256: string)
    requires Inv(s) && IsID(id) && Matches(content, fileSize, sha256, s.digest)
    requires id in s.rows ==> s.rows[id].fileSize == fileSize && s.rows[id].sha256 == sha256
    requires forall u :: InFlight(s, u) && s.uploads[u].id == id ==> !s.uploads[u].phase.Renamed?
    ensures Inv(s.(files := Without(s.files[StoragePath(id) := content], Temp(StoragePath(id)))))
  {
    var t := s.(files := Without(s.files[StoragePath(id) := content], Temp(StoragePath(id))));
    forall k | k in t.rows && t.rows[k].status == Completed && k !in t.deleting
      ensures Stored(t, t.rows[k].storagePath, t.rows[k].fileSize, t.rows[k].sha256) {
      PathsAreApart(id, k, StoragePath(id), "");
    }
    forall u | InFlight(t, u) ensures UploadOk(t, t.uploads[u]) {
      assert InFlight(s, u) && UploadOk(s, s.uploads[u]);
      var up := s.uploads[u];
      PathsAreApart(id, up.id, StoragePath(id), "");
      PathsAreApart(up.id, id, up.path, StoragePath(id));
      assert TempFits(up, t.files);
    }
  }

  lemma CloseKeepsInv(s: State, u: nat)
    requires Inv(s) && Enabled(s, CloseUpload(u))
    ensures Inv(Apply(s, CloseUpload(u)))
  {
    var up := s.uploads[u];
    assert InFlight(s, u) && UploadOk(s, up);
    UploadMovesOn(s, u, up.(phase := Done(up.phase.success)));
    var moved := s.(uploads := s.uploads[u := up.(phase := Done(up.phase.success))]);
    if up.phase.discard {
      RemovingTempFits(moved, up.id, up.path);
      FilesChangeKeepsInv(moved, Without(s.files, Temp(up.path)));
    }
  }

  lemma CancelKeepsInv(s: State, step: Step)
    requires Inv(s) && Enabled(s, step)
    requires step.BeginCancel? || step.LocateCancel? || step.RemoveTemp? || step.MarkCancelled? || step.LateFailure?
    ensures Inv(Apply(s, step))
  {
    if step.LateFailure? {
      StatusChangeKeepsInv(s, step.id, Failed, 0);
    } else if step.MarkCancelled? {
      StatusChangeKeepsInv(s, s.cancels[step.c].id, Failed, 0);
    } else {
      var cancels := Apply(s, step).cancels;
      var t := s.(cancels := cancels);
      assert Inv(t) by { CancelsDoNotMatter(s, t); }
      if step.RemoveTemp? {
        RemovingTempFits(t, s.cancels[step.c].id, s.cancels[step.c].path);
        FilesChangeKeepsInv(t, Without(s.files, Temp(s.cancels[step.c].path)));
      }
    }
  }

  lemma CancelsDoNotMatter(s: State, t: State)
    requires Inv(s) && t == s.(cancels := t.cancels)
    requires forall c :: c in t.cancels ==> IsID(t.cancels[c].id) && PathOf(t.cancels[c].path, t.cancels[c].id)
    ensures Inv(t)
  {
  }

  lemma DeleteKeepsInv(s: State, step: Step)
    requires Inv(s) && Enabled(s, step)
    requires step.BeginDelete? || step.DeleteFile? || step.DeleteRow?
    ensures Inv(Apply(s, step))
  {
    var t := Apply(s, step);
    if step.DeleteFile? {
      if step.ok {
        RemovingFinalFits(s, s.deletions[step.d].id);
        FilesChangeKeepsInv(s, t.files);
      }
    } else {
      forall u | InFlight(t, u) ensures UploadOk(t, t.uploads[u]) {
        assert InFlight(s, u) && UploadOk(s, s.uploads[u]);
      }
      AloneCarriesOver(s, t);
    }
  }

  lemma StepKeepsInv(s: State, step: Step)
    requires Inv(s) && Enabled(s, step) && OneUploader(s, step)
    ensures Inv(Apply(s, step))
  {
    match step
    case InitUpload(_, _, _) => InitKeepsInv(s, step);
    case BeginUpload(_, _, _) => BeginKeepsInv(s, step);
    case Locate(u, ok, found) => LocateKeepsInv(s, u, ok, found);
    case EndCopy(u) => EndCopyKeepsInv(s, u);
    case CloseTemp(u, ok) => CloseTempKeepsInv(s, u, ok);
    case MarkUploading(u, ok) => MarkUploadingKeepsInv(s, u, ok);
    case MarkCompleted(u, now, ok) => MarkCompletedKeepsInv(s, u, now, ok);
    case MarkFailed(u, ok) => MarkFailedKeepsInv(s, u, ok);
    case CreateTemp(u, ok) => CreateKeepsInv(s, u, ok);
    case CopyChunk(u, n, ok) => ChunkKeepsInv(s, u, n, ok);
    case Rename(u, ok) => RenameKeepsInv(s, u, ok);
    case CloseUpload(u) => CloseKeepsInv(s, u);
    case BeginDelete(_, _) => DeleteKeepsInv(s, step);
    case DeleteFile(_, _) => DeleteKeepsInv(s, step);
    case DeleteRow(_, _) => DeleteKeepsInv(s, step);
    case _ => CancelKeepsInv(s, step);
  }

  lemma {:induction false} RunKeepsInv(s: State, steps: seq<Step>)
    requires Inv(s) && CanRun(s, steps) && OneUploaderRun(s, steps)
    ensures Inv(Run(s, steps))
    decreases |steps|
  {
    if steps != [] {
      StepKeepsInv(s, steps[0]);
      RunKeepsInv(Apply(s, steps[0]), steps[1..]);
    }
  }
}
