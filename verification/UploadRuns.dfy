/** Uploads, cancels and deletions that nothing disturbs are runs of the protocol (internal/objects/upload.go). */
module UploadRuns {
  import opened Wrappers
  import opened ObjectStore
  import opened UploadProtocol
  import opened UploadTheorems
  import opened ObjectStorage

  // ---------------------------------------------------------------- the copy

  /** An upload that has taken `written` so far, into a temp file that held `held` before. */
  function Wrote(t: State, u: nat, written: Bytes): State
    requires u in t.uploads && Temp(t.uploads[u].path) in t.files
  {
    var path := Temp(t.uploads[u].path);
    t.(files := t.files[path := t.files[path] + written], uploads := t.uploads[u := t.uploads[u].(written := written)])
  }

  /** One write of the copy is one step of the protocol. */
  lemma WriteIsStep(t: State, u: nat, written: Bytes, chunk: Bytes)
    requires InPhase(t, u, Copying) && Temp(t.uploads[u].path) in t.files
    requires var up := t.uploads[u];
             |written| + |chunk| <= Limit(up) && |written| + |chunk| <= |up.stream.bytes|
             && up.stream.bytes[|written|..|written| + |chunk|] == chunk && chunk != []
    ensures Enabled(Wrote(t, u, written), CopyChunk(u, |chunk|, true))
    ensures Apply(Wrote(t, u, written), CopyChunk(u, |chunk|, true)) == Wrote(t, u, written + chunk)
  {
    var path := Temp(t.uploads[u].path);
    assert (t.files[path] + written) + chunk == t.files[path] + (written + chunk);
  }

  ghost predicate AboutToCopy(t: State, u: nat, bytes: Bytes) {
    InPhase(t, u, Copying) && t.uploads[u].written == [] && t.uploads[u].stream.bytes == bytes
    && Temp(t.uploads[u].path) in t.files
  }

  lemma NothingWritten(t: State, u: nat, bytes: Bytes)
    requires AboutToCopy(t, u, bytes)
    ensures Wrote(t, u, []) == t
  {
    var path := Temp(t.uploads[u].path);
    assert t.files[path] + [] == t.files[path] && t.uploads[u].(written := []) == t.uploads[u];
  }

  /** The step, if any, that the copy of read `i` is. */
  lemma ReadIsStep(t: State, u: nat, chunks: seq<Bytes>, i: nat) returns (step: Option<Step>)
    requires AboutToCopy(t, u, Flat(chunks)) && i < |chunks|
    ensures var limit := Limit(t.uploads[u]);
            var before := Wrote(t, u, Taken(Flat(chunks[..i]), limit));
            var after := Wrote(t, u, Taken(Flat(chunks[..i + 1]), limit));
            if step.None? then after == before else Enabled(before, step.value) && Apply(before, step.value) == after
  {
    var limit := Limit(t.uploads[u]);
    var written := Taken(Flat(chunks[..i]), limit);
    FlatNext(chunks, i);
    step := None;
    if |written| < limit {
      TakeNext(chunks, i, written, limit);
      var chunk := NextChunk(chunks, i, written, limit);
      if chunk != [] {
        WriteIsStep(t, u, written, chunk);
        step := Some(CopyChunk(u, |chunk|, true));
      } else {
        assert written + chunk == written;
        assert Taken(Flat(chunks[..i + 1]), limit) == written;
      }
    } else if 0 < limit {
      assert Flat(chunks[..i])[..limit] == written;
      assert Flat(chunks[..i + 1])[..limit] == Flat(chunks[..i])[..limit];
      assert Taken(Flat(chunks[..i + 1]), limit) == written;
    } else {
      assert Taken(Flat(chunks[..i + 1]), limit) == written;
    }
  }

  /** The copy of the first `i` reads, as a run of the protocol. */
  lemma {:induction false} CopyIsRun(t: State, u: nat, chunks: seq<Bytes>, i: nat) returns (steps: seq<Step>)
    requires AboutToCopy(t, u, Flat(chunks)) && i <= |chunks|
    ensures CanRun(t, steps) && Run(t, steps) == Wrote(t, u, Taken(Flat(chunks[..i]), Limit(t.uploads[u])))
  {
    if i == 0 {
      NothingWritten(t, u, Flat(chunks));
      steps := [];
    } else {
      steps := CopyIsRun(t, u, chunks, i - 1);
      var step := ReadIsStep(t, u, chunks, i - 1);
      if step.Some? {
        RunLast(t, steps, step.value);
        steps := steps + [step.value];
      }
    }
  }

  /** The copy of everything before the write that fails, and that write. */
  lemma BreakIsRun(t: State, u: nat, chunks: seq<Bytes>, failsAt: nat, marked: bool) returns (steps: seq<Step>)
    requires AboutToCopy(t, u, Flat(chunks)) && Breaks(chunks, Limit(t.uploads[u]), Some(failsAt))
    ensures CanRun(t, steps)
    ensures var end := Run(t, steps);
            && InPhase(end, u, Done(false)) && end.files == Without(t.files, Temp(t.uploads[u].path))
            && end.rows == FailedRows(t.rows, t.uploads[u].id, 0, marked)
  {
    var limit := Limit(t.uploads[u]);
    var written := Flat(chunks[..failsAt]);
    var copy := CopyIsRun(t, u, chunks, failsAt);
    assert Taken(written, limit) == written;
    TakeNext(chunks, failsAt, written, limit);
    var chunk := NextChunk(chunks, failsAt, written, limit);
    var t1 := Wrote(t, u, written);
    WriteIsStep(t, u, written, chunk);
    var t2 := Apply(t1, CopyChunk(u, |chunk|, false));
    var fail := FailIsRun(t2, u, marked);
    RunFirst(t1, CopyChunk(u, |chunk|, false), fail);
    RunsCompose(t, copy, [CopyChunk(u, |chunk|, false)] + fail);
    steps := copy + ([CopyChunk(u, |chunk|, false)] + fail);
    assert Without(t1.files, Temp(t.uploads[u].path)) == Without(t.files, Temp(t.uploads[u].path));
  }

  // ---------------------------------------------------------------- after the copy

  /** Every failure once the row says uploading. */
  lemma FailIsRun(t: State, u: nat, marked: bool) returns (steps: seq<Step>)
    requires u in t.uploads && t.uploads[u].phase.Failing?
    ensures CanRun(t, steps)
    ensures var end := Run(t, steps);
            && InPhase(end, u, Done(false)) && end.rows == FailedRows(t.rows, t.uploads[u].id, 0, marked)
            && end.files == if t.uploads[u].phase.discard then Without(t.files, Temp(t.uploads[u].path)) else t.files
  {
    var t1 := Apply(t, MarkFailed(u, marked));
    RunFirst(t1, CloseUpload(u), []);
    steps := [CloseUpload(u)] + [];
    RunFirst(t, MarkFailed(u, marked), steps);
    steps := [MarkFailed(u, marked)] + steps;
  }

  lemma RenamedIsRun(t: State, u: nat, now: int, completed: bool) returns (steps: seq<Step>)
    requires InPhase(t, u, Renamed) && t.uploads[u].id in t.rows && Temp(t.uploads[u].path) !in t.files
    ensures CanRun(t, steps)
    ensures var end := Run(t, steps);
            && InPhase(end, u, Done(completed)) && end.files == t.files
            && end.rows == if completed then WithStatus(t.rows, t.uploads[u].id, Completed, now) else t.rows
  {
    var t1 := Apply(t, MarkCompleted(u, now, completed));
    RunFirst(t1, CloseUpload(u), []);
    steps := [CloseUpload(u)] + [];
    RunFirst(t, MarkCompleted(u, now, completed), steps);
    steps := [MarkCompleted(u, now, completed)] + steps;
    assert Without(t.files, Temp(t.uploads[u].path)) == t.files;
  }

  /** Where an upload stands at the end of its copy. */
  ghost predicate HasCopied(t: State, u: nat) {
    && u in t.uploads
    && var up := t.uploads[u];
       IsID(up.id) && PathOf(up.path, up.id) && up.id in t.rows && Temp(up.path) in t.files
       && t.files[Temp(up.path)] == up.written
  }

  /** What the rename and the status write make of rows and files. */
  function Finished(t: State, u: nat, now: int, luck: UploadLuck): Outcome
    requires u in t.uploads
  {
    var up := t.uploads[u];
    if !luck.renamed || up.path == "" then
      Outcome(FailedRows(t.rows, up.id, now, luck.failureMarked), Without(t.files, Temp(up.path)), false)
    else
      Outcome(if luck.completed then WithStatus(t.rows, up.id, Completed, now) else t.rows,
              Without(t.files[up.path := up.written], Temp(up.path)), luck.completed)
  }

  /** The state has these rows and files, and its upload has ended with this result. */
  predicate EndsAs(end: State, u: nat, outcome: Outcome) {
    end.rows == outcome.rows && end.files == outcome.files && InPhase(end, u, Done(outcome.ok))
  }

  lemma VerifiedIsRun(t: State, u: nat, now: int, luck: UploadLuck) returns (steps: seq<Step>)
    requires HasCopied(t, u) && InPhase(t, u, Verified)
    ensures CanRun(t, steps) && EndsAs(Run(t, steps), u, Finished(t, u, now, luck))
  {
    var up := t.uploads[u];
    PathsAreApart(up.id, up.id, up.path, "");
    var t1 := Apply(t, Rename(u, luck.renamed));
    if !luck.renamed || up.path == "" {
      steps := FailIsRun(t1, u, luck.failureMarked);
    } else {
      steps := RenamedIsRun(t1, u, now, luck.completed);
    }
    RunFirst(t, Rename(u, luck.renamed), steps);
    steps := [Rename(u, luck.renamed)] + steps;
  }

  /** The decision on an upload's own bytes. */
  function Decided(t: State, u: nat, now: int, luck: UploadLuck): Outcome
    requires u in t.uploads
  {
    var up := t.uploads[u];
    Decision(t.rows, t.files, up.id, up.path, up.fileSize, up.sha256, up.written, up.stream.clean, t.digest, now, luck)
  }

  lemma CopiedIsRun(t: State, u: nat, now: int, luck: UploadLuck) returns (steps: seq<Step>)
    requires HasCopied(t, u) && InPhase(t, u, Copied) && AfterCopy(t.uploads[u]).Copied?
    ensures CanRun(t, steps) && EndsAs(Run(t, steps), u, Decided(t, u, now, luck))
  {
    var t1 := Apply(t, CloseTemp(u, luck.closed));
    if t1.uploads[u].phase.Failing? {
      steps := FailIsRun(t1, u, luck.failureMarked);
    } else {
      steps := VerifiedIsRun(t1, u, now, luck);
    }
    RunFirst(t, CloseTemp(u, luck.closed), steps);
    steps := [CloseTemp(u, luck.closed)] + steps;
  }

  /** From the end of the copy on. */
  lemma FinishIsRun(t: State, u: nat, now: int, luck: UploadLuck) returns (steps: seq<Step>)
    requires HasCopied(t, u) && Enabled(t, EndCopy(u))
    ensures CanRun(t, steps) && EndsAs(Run(t, steps), u, Decided(t, u, now, luck))
  {
    var t1 := Apply(t, EndCopy(u));
    if AfterCopy(t.uploads[u]).Failing? {
      steps := FailIsRun(t1, u, luck.failureMarked);
    } else {
      steps := CopiedIsRun(t1, u, now, luck);
    }
    RunFirst(t, EndCopy(u), steps);
    steps := [EndCopy(u)] + steps;
  }

  // ---------------------------------------------------------------- a whole upload

  /** The outcome of the copy and everything after it, from where the temp file has just been created. */
  function Rest(t: State, u: nat, chunks: seq<Bytes>, now: int, luck: UploadLuck): Outcome
    requires u in t.uploads
  {
    var up := t.uploads[u];
    Received(t.rows, t.files, up.id, up.path, up.fileSize, up.sha256, chunks, up.stream.clean, t.digest, now, luck)
  }

  lemma BrokenRestIsRun(t: State, u: nat, chunks: seq<Bytes>, now: int, luck: UploadLuck) returns (steps: seq<Step>)
    requires AboutToCopy(t, u, Flat(chunks)) && Breaks(chunks, Limit(t.uploads[u]), luck.failsAt)
    ensures CanRun(t, steps) && EndsAs(Run(t, steps), u, Rest(t, u, chunks, now, luck))
  {
    steps := BreakIsRun(t, u, chunks, luck.failsAt.value, luck.failureMarked);
    BrokenDecision(t, u, Written(chunks, Limit(t.uploads[u]), luck.failsAt), now, luck);
  }

  /** An upload that has just created its temp file. */
  ghost predicate HasCreated(t: State, u: nat) {
    && u in t.uploads
    && var up := t.uploads[u];
       && IsID(up.id) && PathOf(up.path, up.id) && up.id in t.rows
       && Temp(up.path) in t.files && t.files[Temp(up.path)] == []
  }

  lemma WroteAll(t: State, u: nat, chunks: seq<Bytes>, now: int, luck: UploadLuck)
    requires AboutToCopy(t, u, Flat(chunks)) && HasCreated(t, u) && !Breaks(chunks, Limit(t.uploads[u]), luck.failsAt)
    ensures var t' := Wrote(t, u, Taken(Flat(chunks), Limit(t.uploads[u])));
            HasCopied(t', u) && Enabled(t', EndCopy(u)) && Decided(t', u, now, luck) == Rest(t, u, chunks, now, luck)
  {
    var written := Taken(Flat(chunks), Limit(t.uploads[u]));
    CopiedInto(t.files, Temp(t.uploads[u].path), written);
    assert Wrote(t, u, written).files == t.files[Temp(t.uploads[u].path) := written];
  }

  lemma WholeRestIsRun(t: State, u: nat, chunks: seq<Bytes>, now: int, luck: UploadLuck) returns (steps: seq<Step>)
    requires AboutToCopy(t, u, Flat(chunks)) && HasCreated(t, u) && !Breaks(chunks, Limit(t.uploads[u]), luck.failsAt)
    ensures CanRun(t, steps) && EndsAs(Run(t, steps), u, Rest(t, u, chunks, now, luck))
  {
    var t' := Wrote(t, u, Taken(Flat(chunks), Limit(t.uploads[u])));
    var copy := CopyIsRun(t, u, chunks, |chunks|);
    assert chunks[..|chunks|] == chunks;
    WroteAll(t, u, chunks, now, luck);
    var finish := FinishIsRun(t', u, now, luck);
    RunsCompose(t, copy, finish);
    steps := copy + finish;
  }

  lemma CreatedIsReady(s: State, u: nat, id: ObjectID, stream: Stream, found: bool)
    requires RowsOk(s.rows) && id in s.rows
    ensures var t := Created(s, u, id, stream, found);
            AboutToCopy(t, u, stream.bytes) && HasCreated(t, u)
  {
  }

  /** What follows the creation of the temp file is what the whole upload comes to. */
  lemma RestIsOutcome(s: State, u: nat, id: ObjectID, chunks: seq<Bytes>, clean: bool, now: int, luck: UploadLuck)
    requires luck.queried && id in s.rows && Uploadable(s.rows[id].status)
    requires Started(s.rows, s.files, id, now, luck).path.Some?
    ensures Rest(Created(s, u, id, Stream(Flat(chunks), clean), luck.found), u, chunks, now, luck)
            == AfterUploadWith(s.rows, s.files, id, chunks, clean, s.digest, now, luck)
  {
  }

  lemma RestIsRun(s: State, u: nat, id: ObjectID, chunks: seq<Bytes>, clean: bool, now: int, luck: UploadLuck)
    returns (steps: seq<Step>)
    requires RowsOk(s.rows) && id in s.rows
    ensures var t := Created(s, u, id, Stream(Flat(chunks), clean), luck.found);
            CanRun(t, steps) && EndsAs(Run(t, steps), u, Rest(t, u, chunks, now, luck))
  {
    var t := Created(s, u, id, Stream(Flat(chunks), clean), luck.found);
    CreatedIsReady(s, u, id, Stream(Flat(chunks), clean), luck.found);
    if Breaks(chunks, Limit(t.uploads[u]), luck.failsAt) {
      steps := BrokenRestIsRun(t, u, chunks, now, luck);
    } else {
      steps := WholeRestIsRun(t, u, chunks, now, luck);
    }
  }

  /** A copy that broke off is decided against, whatever else. */
  lemma BrokenDecision(t: State, u: nat, written: Bytes, now: int, luck: UploadLuck)
    requires u in t.uploads && |written| < Limit(t.uploads[u])
    ensures var up := t.uploads[u];
            Decision(t.rows, t.files[Temp(up.path) := written], up.id, up.path, up.fileSize, up.sha256, written, false,
                     t.digest, now, luck)
            == Outcome(FailedRows(t.rows, up.id, 0, luck.failureMarked), Without(t.files, Temp(up.path)), false)
  {
  }

  /** An upload that does not come to its temp file. */
  lemma NoStartIsRun(s: State, u: nat, id: ObjectID, stream: Stream, now: int, luck: UploadLuck)
    returns (steps: seq<Step>)
    requires u !in s.uploads && id in s.rows && Uploadable(s.rows[id].status)
    requires Started(s.rows, s.files, id, now, luck).path.None?
    ensures var start := Started(s.rows, s.files, id, now, luck);
            CanRun(s, steps) && EndsAs(Run(s, steps), u, Outcome(start.rows, start.files, false))
  {
    var t1 := Apply(s, BeginUpload(u, id, stream));
    var t2 := Apply(t1, MarkUploading(u, luck.marked));
    if !luck.marked {
      RunFirst(t1, MarkUploading(u, false), []);
      steps := [MarkUploading(u, false)] + [];
    } else {
      steps := NoTempIsRun(t2, u, luck);
      RunFirst(t1, MarkUploading(u, true), steps);
      steps := [MarkUploading(u, true)] + steps;
    }
    RunFirst(s, BeginUpload(u, id, stream), steps);
    steps := [BeginUpload(u, id, stream)] + steps;
  }

  lemma NoTempIsRun(t: State, u: nat, luck: UploadLuck) returns (steps: seq<Step>)
    requires InPhase(t, u, Marked) && !(luck.dirMade && luck.created)
    ensures CanRun(t, steps)
    ensures EndsAs(Run(t, steps), u,
                   Outcome(FailedRows(t.rows, t.uploads[u].id, 0, luck.failureMarked), t.files, false))
  {
    var t1 := Apply(t, Locate(u, luck.dirMade, luck.found));
    if luck.dirMade {
      steps := FailIsRun(Apply(t1, CreateTemp(u, false)), u, luck.failureMarked);
      RunFirst(t1, CreateTemp(u, false), steps);
      steps := [CreateTemp(u, false)] + steps;
    } else {
      steps := FailIsRun(t1, u, luck.failureMarked);
    }
    RunFirst(t, Locate(u, luck.dirMade, luck.found), steps);
    steps := [Locate(u, luck.dirMade, luck.found)] + steps;
  }

  /** An upload that comes to its temp file. */
  lemma StartedIsRun(s: State, u: nat, id: ObjectID, chunks: seq<Bytes>, clean: bool, now: int, luck: UploadLuck)
    returns (steps: seq<Step>)
    requires RowsOk(s.rows) && u !in s.uploads && luck.queried && id in s.rows && Uploadable(s.rows[id].status)
    requires Started(s.rows, s.files, id, now, luck).path.Some?
    ensures CanRun(s, steps)
    ensures EndsAs(Run(s, steps), u, AfterUploadWith(s.rows, s.files, id, chunks, clean, s.digest, now, luck))
  {
    var rest := RestIsRun(s, u, id, chunks, clean, now, luck);
    RestIsOutcome(s, u, id, chunks, clean, now, luck);
    steps := StartIsRun(s, u, id, Stream(Flat(chunks), clean), luck.found, rest);
  }

  /** An upload that is refused. */
  lemma RefusalIsRun(s: State, u: nat, id: ObjectID, stream: Stream)
    requires u !in s.uploads && (id in s.rows ==> !Uploadable(s.rows[id].status))
    ensures var steps := [BeginUpload(u, id, stream)] + [];
            CanRun(s, steps) && EndsAs(Run(s, steps), u, Outcome(s.rows, s.files, false))
  {
    RunFirst(s, BeginUpload(u, id, stream), []);
  }

  /**
   HandleUpload by itself is one run of the protocol, whichever of its operations fail and however its stream is cut
   into reads: what is proved of all interleavings holds of it.
   */
  lemma HandleUploadIsRun(s: State, u: nat, id: ObjectID, chunks: seq<Bytes>, clean: bool, now: int, luck: UploadLuck)
    returns (steps: seq<Step>)
    requires RowsOk(s.rows) && u !in s.uploads
    ensures CanRun(s, steps)
    ensures var end := Run(s, steps);
            var outcome := AfterUploadWith(s.rows, s.files, id, chunks, clean, s.digest, now, luck);
            if luck.queried then EndsAs(end, u, outcome) else end == s && outcome == Outcome(s.rows, s.files, false)
  {
    var stream := Stream(Flat(chunks), clean);
    if !luck.queried {
      steps := [];
    } else if id !in s.rows || !Uploadable(s.rows[id].status) {
      RefusalIsRun(s, u, id, stream);
      steps := [BeginUpload(u, id, stream)] + [];
    } else if Started(s.rows, s.files, id, now, luck).path.None? {
      steps := NoStartIsRun(s, u, id, stream, now, luck);
    } else {
      steps := StartedIsRun(s, u, id, chunks, clean, now, luck);
    }
  }

  /** CancelUpload by itself is one run of the protocol, too. */
  lemma CancelUploadIsRun(s: State, c: nat, id: ObjectID) returns (steps: seq<Step>)
    requires RowsOk(s.rows) && c !in s.cancels && id in s.rows && Uploadable(s.rows[id].status)
    ensures CanRun(s, steps)
    ensures var end := Run(s, steps);
            end.rows == WithStatus(s.rows, id, Failed, 0) && end.files == Without(s.files, Temp(StoragePath(id)))
            && end.uploads == s.uploads && end.deleting == s.deleting
  {
    var s1 := Apply(s, BeginCancel(c, id));
    var s2 := Apply(s1, LocateCancel(c, true));
    var s3 := Apply(s2, RemoveTemp(c));
    RunFirst(s3, MarkCancelled(c, true), []);
    RunFirst(s2, RemoveTemp(c), [MarkCancelled(c, true)] + []);
    RunFirst(s1, LocateCancel(c, true), [RemoveTemp(c)] + ([MarkCancelled(c, true)] + []));
    steps := [LocateCancel(c, true)] + ([RemoveTemp(c)] + ([MarkCancelled(c, true)] + []));
    RunFirst(s, BeginCancel(c, id), steps);
    steps := [BeginCancel(c, id)] + steps;
  }

  /** So is DeleteObject, and each round of the cleanup. */
  lemma DeleteObjectIsRun(s: State, d: nat, id: ObjectID) returns (steps: seq<Step>)
    requires RowsOk(s.rows) && d !in s.deletions && id in s.rows
    ensures CanRun(s, steps)
    ensures var end := Run(s, steps);
            end.rows == Without(s.rows, id) && end.files == Without(s.files, StoragePath(id))
            && end.uploads == s.uploads && end.deleting == s.deleting + {id}
  {
    var s1 := Apply(s, BeginDelete(d, id));
    var s2 := Apply(s1, DeleteFile(d, true));
    RunFirst(s2, DeleteRow(d, true), []);
    RunFirst(s1, DeleteFile(d, true), [DeleteRow(d, true)] + []);
    RunFirst(s, BeginDelete(d, id), [DeleteFile(d, true)] + ([DeleteRow(d, true)] + []));
    steps := [BeginDelete(d, id)] + ([DeleteFile(d, true)] + ([DeleteRow(d, true)] + []));
  }

  /**
   From the announcement to the verdict: wherever a run has led, an upload of an object that nothing disturbs is
   accepted if and only if its stream ends cleanly with the size and digest that the object's InitUpload announced.
   */
  lemma AcceptedAsAnnounced(digest: Digest, steps: seq<Step>, id: ObjectID, fileSize: int, sha256: string,
                            bytes: Bytes, clean: bool, now: int)
    requires CanRun(Initial(digest), steps) && InitUpload(id, fileSize, sha256) in steps
    requires var s := Run(Initial(digest), steps);
             id in s.rows && (s.rows[id].status == Pending || s.rows[id].status == Uploading)
    ensures var s := Run(Initial(digest), steps);
            AfterUpload(s.rows, s.files, id, bytes, clean, digest, now).ok
            <==> clean && |bytes| == fileSize && (sha256 != "" ==> digest(bytes) == sha256)
  {
    RowIsAnnounced(Initial(digest), steps, id, fileSize, sha256);
  }
}
