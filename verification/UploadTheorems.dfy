/** What the upload protocol guarantees over every run, and where its one-uploader assumption is needed. */
module UploadTheorems {
  import opened Wrappers
  import opened ObjectStore
  import opened UploadProtocol

  /**
   Completed means stored: however cancellations, late failures, deletions and failing operations interleave,
   a completed row on which no deletion has begun has a final file of exactly the announced size, with the
   announced digest if there was one.
   */
  lemma CompletedMeansStored(digest: Digest, steps: seq<Step>, id: ObjectID)
    requires CanRun(Initial(digest), steps) && OneUploaderRun(Initial(digest), steps)
    requires var s := Run(Initial(digest), steps);
             id in s.rows && s.rows[id].status == Completed && id !in s.deleting
    ensures var s := Run(Initial(digest), steps);
            StoragePath(id) in s.files
            && |s.files[StoragePath(id)]| == s.rows[id].fileSize
            && (s.rows[id].sha256 != "" ==> digest(s.files[StoragePath(id)]) == s.rows[id].sha256)
  {
    RunKeepsInv(Initial(digest), steps);
    DigestIsFixed(Initial(digest), steps);
    var s := Run(Initial(digest), steps);
    assert Stored(s, s.rows[id].storagePath, s.rows[id].fileSize, s.rows[id].sha256);
  }

  /** The id has been issued, and its row, while there is one, says this. */
  predicate Announced(s: State, id: ObjectID, fileSize: int, sha256: string) {
    id in s.issued && (id in s.rows ==> s.rows[id].fileSize == fileSize && s.rows[id].sha256 == sha256)
  }

  /** If the object still has a row, that says the same. */
  predicate SameAnnouncement(s: State, t: State, id: ObjectID) {
    id in t.rows ==>
      id in s.rows && t.rows[id].fileSize == s.rows[id].fileSize && t.rows[id].sha256 == s.rows[id].sha256
  }

  lemma EarlyStepKeepsAnnouncement(s: State, step: Step, id: ObjectID)
    requires Enabled(s, step) && EarlyStep(step)
    ensures SameAnnouncement(s, Apply(s, step), id) && Apply(s, step).issued == s.issued
  {
  }

  lemma LateStepKeepsAnnouncement(s: State, step: Step, id: ObjectID)
    requires Enabled(s, step) && LateStep(step)
    ensures SameAnnouncement(s, Apply(s, step), id) && Apply(s, step).issued == s.issued
  {
  }

  lemma OtherStepKeepsAnnouncement(s: State, step: Step, id: ObjectID)
    requires Enabled(s, step) && id in s.issued && !EarlyStep(step) && !LateStep(step)
    ensures SameAnnouncement(s, Apply(s, step), id) && id in Apply(s, step).issued
  {
  }

  lemma RowsStayAnnounced(s: State, step: Step, id: ObjectID)
    requires Enabled(s, step) && id in s.issued
    ensures SameAnnouncement(s, Apply(s, step), id) && id in Apply(s, step).issued
  {
    if EarlyStep(step) {
      EarlyStepKeepsAnnouncement(s, step, id);
    } else if LateStep(step) {
      LateStepKeepsAnnouncement(s, step, id);
    } else {
      OtherStepKeepsAnnouncement(s, step, id);
    }
  }

  lemma {:induction false} AnnouncedStays(s: State, steps: seq<Step>, id: ObjectID, fileSize: int, sha256: string)
    requires CanRun(s, steps) && Announced(s, id, fileSize, sha256)
    ensures Announced(Run(s, steps), id, fileSize, sha256)
    decreases |steps|
  {
    if steps != [] {
      RowsStayAnnounced(s, steps[0], id);
      AnnouncedStays(Apply(s, steps[0]), steps[1..], id, fileSize, sha256);
    }
  }

  /** In every run the row of an object has the size and digest that its InitUpload announced. */
  lemma {:induction false} RowIsAnnounced(s: State, steps: seq<Step>, id: ObjectID, fileSize: int, sha256: string)
    requires CanRun(s, steps) && InitUpload(id, fileSize, sha256) in steps
    ensures var t := Run(s, steps);
            id in t.rows ==> t.rows[id].fileSize == fileSize && t.rows[id].sha256 == sha256
    decreases |steps|
  {
    var t := Apply(s, steps[0]);
    if steps[0] == InitUpload(id, fileSize, sha256) {
      AnnouncedStays(t, steps[1..], id, fileSize, sha256);
    } else {
      assert steps == [steps[0]] + steps[1..];
      RowIsAnnounced(t, steps[1..], id, fileSize, sha256);
    }
  }

  /** So a completed object is stored as it was announced. */
  lemma CompletedAsAnnounced(digest: Digest, steps: seq<Step>, id: ObjectID, fileSize: int, sha256: string)
    requires CanRun(Initial(digest), steps) && OneUploaderRun(Initial(digest), steps)
    requires InitUpload(id, fileSize, sha256) in steps
    requires var s := Run(Initial(digest), steps);
             id in s.rows && s.rows[id].status == Completed && id !in s.deleting
    ensures var s := Run(Initial(digest), steps);
            StoragePath(id) in s.files && |s.files[StoragePath(id)]| == fileSize
            && (sha256 != "" ==> digest(s.files[StoragePath(id)]) == sha256)
  {
    CompletedMeansStored(digest, steps, id);
    RowIsAnnounced(Initial(digest), steps, id, fileSize, sha256);
  }

  lemma {:induction false} DigestIsFixed(s: State, steps: seq<Step>)
    requires CanRun(s, steps)
    ensures Run(s, steps).digest == s.digest
    decreases |steps|
  {
    if steps != [] {
      DigestIsFixed(Apply(s, steps[0]), steps[1..]);
    }
  }

  /** The paths whose files a step may write or remove. */
  function TouchedPaths(s: State, step: Step): set<Path>
    requires Enabled(s, step)
  {
    match step
    case CreateTemp(u, _) => {Temp(s.uploads[u].path)}
    case CopyChunk(u, _, _) => {Temp(s.uploads[u].path)}
    case Rename(u, _) => {s.uploads[u].path, Temp(s.uploads[u].path)}
    case CloseUpload(u) => {Temp(s.uploads[u].path)}
    case RemoveTemp(c) => {Temp(s.cancels[c].path)}
    case DeleteFile(d, _) => {s.deletions[d].path}
    case _ => {}
  }

  /** One file stays as it is. */
  predicate Keeps(s: State, t: State, path: Path) {
    path in s.files && path in t.files && t.files[path] == s.files[path]
  }

  lemma UploadLeavesOthers(s: State, step: Step, path: Path)
    requires Enabled(s, step) && path in s.files && path !in TouchedPaths(s, step)
    requires step.CreateTemp? || step.CopyChunk? || step.Rename? || step.CloseUpload?
    ensures Keeps(s, Apply(s, step), path)
  {
    match step
    case CreateTemp(u, ok) => assert Keeps(s, Apply(s, CreateTemp(u, ok)), path);
    case CopyChunk(u, n, ok) => assert Keeps(s, Apply(s, CopyChunk(u, n, ok)), path);
    case Rename(u, ok) => assert Keeps(s, Apply(s, Rename(u, ok)), path);
    case CloseUpload(u) => assert Keeps(s, Apply(s, CloseUpload(u)), path);
  }

  lemma UntouchedStays(s: State, step: Step, path: Path)
    requires Enabled(s, step) && path in s.files && path !in TouchedPaths(s, step)
    ensures Keeps(s, Apply(s, step), path)
  {
    if step.CreateTemp? || step.CopyChunk? || step.Rename? || step.CloseUpload? {
      UploadLeavesOthers(s, step, path);
    }
  }

  lemma CompletedIsUntouched(s: State, step: Step, id: ObjectID)
    requires Inv(s) && Enabled(s, step)
    requires id in s.rows && s.rows[id].status == Completed && id !in s.deleting
    ensures StoragePath(id) !in TouchedPaths(s, step)
  {
    if step.CreateTemp? || step.CopyChunk? || step.Rename? || step.CloseUpload? {
      UploadIsElsewhere(s, step.u, id);
    } else if step.RemoveTemp? {
      PathsAreApart(s.cancels[step.c].id, id, s.cancels[step.c].path, "");
    } else if step.DeleteFile? {
      PathsAreApart(s.deletions[step.d].id, id, "", "");
    }
  }

  lemma UploadIsElsewhere(s: State, u: nat, id: ObjectID)
    requires Inv(s) && InFlight(s, u) && id in s.rows && s.rows[id].status == Completed
    ensures Temp(s.uploads[u].path) != StoragePath(id)
    ensures s.uploads[u].phase.Closing? || s.uploads[u].path != StoragePath(id)
  {
    assert UploadOk(s, s.uploads[u]);
    PathsAreApart(s.uploads[u].id, id, s.uploads[u].path, "");
  }

  /** The file of a completed object stays as it is under every step, until a deletion begins. */
  lemma CompletedFileIsStable(s: State, step: Step, id: ObjectID)
    requires Inv(s) && Enabled(s, step)
    requires id in s.rows && s.rows[id].status == Completed && id !in s.deleting
    ensures Keeps(s, Apply(s, step), StoragePath(id))
  {
    assert Stored(s, s.rows[id].storagePath, s.rows[id].fileSize, s.rows[id].sha256);
    CompletedIsUntouched(s, step, id);
    UntouchedStays(s, step, StoragePath(id));
  }

  lemma {:induction false} RunLast(s: State, steps: seq<Step>, step: Step)
    requires CanRun(s, steps) && Enabled(Run(s, steps), step)
    ensures CanRun(s, steps + [step]) && Run(s, steps + [step]) == Apply(Run(s, steps), step)
    decreases |steps|
  {
    if steps == [] {
      assert [step][1..] == [] && steps + [step] == [step];
    } else {
      assert (steps + [step])[1..] == steps[1..] + [step];
      RunLast(Apply(s, steps[0]), steps[1..], step);
    }
  }

  /** A late failure changes the status of that row, whatever it was, and nothing else. */
  lemma LateFailureFails(s: State, id: ObjectID)
    ensures var t := Apply(s, LateFailure(id));
            && t == s.(rows := t.rows) && t.rows.Keys == s.rows.Keys
            && (id in s.rows ==> t.rows[id] == s.rows[id].(status := Failed))
            && (forall other :: other in s.rows && other != id ==> t.rows[other] == s.rows[other])
  {
  }

  // ---------------------------------------------------------------- runs put together

  lemma RunFirst(s: State, step: Step, rest: seq<Step>)
    requires Enabled(s, step) && CanRun(Apply(s, step), rest)
    ensures CanRun(s, [step] + rest) && Run(s, [step] + rest) == Run(Apply(s, step), rest)
  {
  }

  lemma {:induction false} RunsCompose(s: State, a: seq<Step>, b: seq<Step>)
    requires CanRun(s, a) && CanRun(Run(s, a), b)
    ensures CanRun(s, a + b) && Run(s, a + b) == Run(Run(s, a), b)
    decreases |a|
  {
    if a == [] {
      assert a + b == b;
    } else {
      assert (a + b)[1..] == a[1..] + b;
      RunsCompose(Apply(s, a[0]), a[1..], b);
    }
  }

  /** What an upload has written is what its stream began with. */
  ghost predicate Prefixes(s: State) {
    forall u :: u in s.uploads ==> s.uploads[u].written <= s.uploads[u].stream.bytes
  }

  lemma ChunkKeepsPrefixes(s: State, u: nat, n: nat, ok: bool)
    requires Prefixes(s) && Enabled(s, CopyChunk(u, n, ok))
    ensures Prefixes(ApplyChunk(s, u, n, ok))
  {
    var up := s.uploads[u];
    assert up.written + Chunk(up, n) == up.stream.bytes[..|up.written| + n];
  }

  /** An upload as it was, save for its phase and path, or with nothing written yet. */
  predicate WroteNoMore(s: State, t: State, u: nat) {
    u in t.uploads ==>
      t.uploads[u].written == []
      || (u in s.uploads && t.uploads[u].written == s.uploads[u].written && t.uploads[u].stream == s.uploads[u].stream)
  }

  predicate EarlyStep(step: Step) {
    step.BeginUpload? || step.MarkUploading? || step.Locate? || step.CreateTemp? || step.EndCopy? || step.CloseTemp?
  }

  predicate LateStep(step: Step) {
    step.Rename? || step.MarkCompleted? || step.MarkFailed? || step.CloseUpload?
  }

  lemma EarlyStepWritesNoMore(s: State, step: Step, u: nat)
    requires Enabled(s, step) && EarlyStep(step)
    ensures WroteNoMore(s, Apply(s, step), u)
  {
  }

  lemma LateStepWritesNoMore(s: State, step: Step, u: nat)
    requires Enabled(s, step) && LateStep(step)
    ensures WroteNoMore(s, Apply(s, step), u)
  {
  }

  lemma OtherStepWritesNoMore(s: State, step: Step, u: nat)
    requires Enabled(s, step) && !EarlyStep(step) && !LateStep(step) && !step.CopyChunk?
    ensures WroteNoMore(s, Apply(s, step), u)
  {
    assert Apply(s, step).uploads == s.uploads;
  }

  lemma StepKeepsPrefixes(s: State, step: Step)
    requires Prefixes(s) && Enabled(s, step)
    ensures Prefixes(Apply(s, step))
  {
    if step.CopyChunk? {
      ChunkKeepsPrefixes(s, step.u, step.n, step.ok);
    } else {
      forall u | u in Apply(s, step).uploads
        ensures Apply(s, step).uploads[u].written <= Apply(s, step).uploads[u].stream.bytes {
        if EarlyStep(step) {
          EarlyStepWritesNoMore(s, step, u);
        } else if LateStep(step) {
          LateStepWritesNoMore(s, step, u);
        } else {
          OtherStepWritesNoMore(s, step, u);
        }
      }
    }
  }

  lemma {:induction false} RunKeepsPrefixes(s: State, steps: seq<Step>)
    requires Prefixes(s) && CanRun(s, steps)
    ensures Prefixes(Run(s, steps))
    decreases |steps|
  {
    if steps != [] {
      StepKeepsPrefixes(s, steps[0]);
      RunKeepsPrefixes(Apply(s, steps[0]), steps[1..]);
    }
  }

  // ---------------------------------------------------------------- two uploaders

  predicate BrokenPromise(s: State, id: ObjectID) {
    && id in s.rows && s.rows[id].status == Completed && id !in s.deleting
    && StoragePath(id) in s.files && |s.files[StoragePath(id)]| != s.rows[id].fileSize
  }

  /** An upload of an existing object on which no deletion has begun, at its own path. */
  predicate Uploads(s: State, u: nat, id: ObjectID, phase: Phase) {
    && IsID(id) && id in s.rows && id !in s.deleting
    && InPhase(s, u, phase) && s.uploads[u].id == id && s.uploads[u].path == StoragePath(id)
  }

  /** An upload that has passed its checks, while its temp file has been given another length. */
  lemma WrongTempBreaks(s: State, u: nat, id: ObjectID)
    requires Uploads(s, u, id, Verified) && Temp(StoragePath(id)) in s.files
    requires |s.files[Temp(StoragePath(id))]| != s.rows[id].fileSize
    ensures var steps := [Rename(u, true)] + [MarkCompleted(u, 0, true)];
            CanRun(s, steps) && BrokenPromise(Run(s, steps), id)
  {
    PathsAreApart(id, id, StoragePath(id), "");
    var s1 := Apply(s, Rename(u, true));
    assert StoragePath(id) in s1.files && s1.files[StoragePath(id)] == s.files[Temp(StoragePath(id))];
    RunFirst(s1, MarkCompleted(u, 0, true), []);
    assert [MarkCompleted(u, 0, true)] + [] == [MarkCompleted(u, 0, true)];
    RunFirst(s, Rename(u, true), [MarkCompleted(u, 0, true)]);
  }

  /** A second upload empties the temp file; one that expects nothing needs a byte in it as well. */
  function Spoil(u: nat, v: nat, fileSize: int): seq<Step> {
    [CreateTemp(v, true)]
    + ((if fileSize == 0 then [CopyChunk(v, 1, true)] else []) + ([Rename(u, true)] + [MarkCompleted(u, 0, true)]))
  }

  /**
   The assumption is needed, for every object: wherever one upload has passed its checks and another one of the same
   object is about to create its temp file, the first may complete with a file of the wrong size.
   */
  lemma SecondUploadBreaks(s: State, u: nat, v: nat, id: ObjectID)
    requires u != v && Uploads(s, u, id, Verified) && Uploads(s, v, id, Located)
    requires s.rows[id].fileSize == 0 ==> CanCopy(s.uploads[v], 1)
    ensures var steps := Spoil(u, v, s.rows[id].fileSize);
            CanRun(s, steps) && BrokenPromise(Run(s, steps), id)
  {
    var t := Apply(s, CreateTemp(v, true));
    var last := [Rename(u, true)] + [MarkCompleted(u, 0, true)];
    if s.rows[id].fileSize == 0 {
      var t' := Apply(t, CopyChunk(v, 1, true));
      WrongTempBreaks(t', u, id);
      RunFirst(t, CopyChunk(v, 1, true), last);
      RunFirst(s, CreateTemp(v, true), [CopyChunk(v, 1, true)] + last);
    } else {
      WrongTempBreaks(t, u, id);
      assert [] + last == last;
      RunFirst(s, CreateTemp(v, true), [] + last);
    }
  }

  /** Up to the rename: the path is known from Locate on, and everything has been read once the copy is over. */
  ghost predicate BeforeRename(up: Upload) {
    match up.phase
    case Checked => up.written == []
    case Marked => up.written == []
    case Located => up.written == [] && up.path == StoragePath(up.id)
    case Copying => up.path == StoragePath(up.id)
    case Copied => up.written == up.stream.bytes && up.path == StoragePath(up.id)
    case Verified => up.path == StoragePath(up.id)
    case _ => false
  }

  /** An upload that will be accepted if nothing interferes, of an object that another upload may still begin on. */
  ghost predicate WillBeAccepted(s: State, u: nat, id: ObjectID) {
    && IsID(id) && id in s.rows && id !in s.deleting && Uploadable(s.rows[id].status)
    && s.rows[id].storagePath == StoragePath(id) && u in s.uploads
    && var up := s.uploads[u];
       && up.id == id && up.fileSize == s.rows[id].fileSize && up.sha256 == s.rows[id].sha256
       && up.written <= up.stream.bytes && up.stream.clean
       && Matches(up.stream.bytes, up.fileSize, up.sha256, s.digest) && BeforeRename(up)
  }

  function PhasesLeft(phase: Phase): nat {
    match phase
    case Checked => 5
    case Marked => 4
    case Located => 3
    case Copying => 2
    case Copied => 1
    case _ => 0
  }

  /** The step the upload takes next when nothing fails. */
  function NextCheck(up: Upload, u: nat): Step {
    match up.phase
    case Checked => MarkUploading(u, true)
    case Marked => Locate(u, true, true)
    case Located => CreateTemp(u, true)
    case Copying =>
      if |up.written| < |up.stream.bytes| then CopyChunk(u, |up.stream.bytes| - |up.written|, true) else EndCopy(u)
    case _ => CloseTemp(u, true)
  }

  /** Another upload, and what two uploads of an object know of its row, stay as they are. */
  predicate LeavesAlone(s: State, t: State, u: nat, id: ObjectID) {
    && id in s.rows && id in t.rows && t.rows[id].fileSize == s.rows[id].fileSize
    && t.rows[id].storagePath == s.rows[id].storagePath
    && forall w :: w in s.uploads && w != u ==> w in t.uploads && t.uploads[w] == s.uploads[w]
  }

  lemma CopyStepIsTaken(s: State, u: nat, id: ObjectID)
    requires WillBeAccepted(s, u, id) && s.uploads[u].phase.Copying?
    ensures var step := NextCheck(s.uploads[u], u);
            Enabled(s, step)
            && var t := Apply(s, step);
               WillBeAccepted(t, u, id) && LeavesAlone(s, t, u, id)
               && (PhasesLeft(t.uploads[u].phase) < 2
                   || (t.uploads[u].phase.Copying? && t.uploads[u].written == t.uploads[u].stream.bytes
                       && s.uploads[u].written != s.uploads[u].stream.bytes))
  {
    var up := s.uploads[u];
    if |up.written| < |up.stream.bytes| {
      assert up.written + Chunk(up, |up.stream.bytes| - |up.written|) == up.stream.bytes;
    } else {
      assert up.written == up.stream.bytes;
    }
  }

  lemma NextIsTaken(s: State, u: nat, id: ObjectID)
    requires WillBeAccepted(s, u, id) && !s.uploads[u].phase.Copying? && !s.uploads[u].phase.Verified?
    ensures var step := NextCheck(s.uploads[u], u);
            Enabled(s, step)
            && var t := Apply(s, step);
               WillBeAccepted(t, u, id) && LeavesAlone(s, t, u, id)
               && PhasesLeft(t.uploads[u].phase) < PhasesLeft(s.uploads[u].phase)
  {
    assert s.uploads[u].phase.Marked? ==> PathFound(s.rows, id, true) == StoragePath(id);
  }

  /** It goes on, wherever it is, until it has passed its checks. */
  lemma {:induction false} CheckIsRun(s: State, u: nat, id: ObjectID) returns (steps: seq<Step>)
    requires WillBeAccepted(s, u, id)
    ensures CanRun(s, steps) && Uploads(Run(s, steps), u, id, Verified) && LeavesAlone(s, Run(s, steps), u, id)
    decreases PhasesLeft(s.uploads[u].phase), |s.uploads[u].stream.bytes| - |s.uploads[u].written|
  {
    if s.uploads[u].phase.Verified? {
      steps := [];
    } else {
      var step := NextCheck(s.uploads[u], u);
      if s.uploads[u].phase.Copying? {
        CopyStepIsTaken(s, u, id);
      } else {
        NextIsTaken(s, u, id);
      }
      steps := CheckIsRun(Apply(s, step), u, id);
      RunFirst(s, step, steps);
      steps := [step] + steps;
    }
  }

  /** A second upload that has passed the state check goes on to where it will create its temp file. */
  lemma SecondIsLocated(s: State, u: nat, v: nat, id: ObjectID) returns (steps: seq<Step>)
    requires u != v && Uploads(s, u, id, Verified) && s.rows[id].storagePath == StoragePath(id)
    requires InPhase(s, v, Checked) && s.uploads[v].id == id
    ensures CanRun(s, steps) && Uploads(Run(s, steps), u, id, Verified) && Uploads(Run(s, steps), v, id, Located)
    ensures Run(s, steps).rows[id].fileSize == s.rows[id].fileSize
    ensures Run(s, steps).uploads[v] == s.uploads[v].(path := StoragePath(id), phase := Located)
  {
    var t := Apply(s, MarkUploading(v, true));
    RunFirst(t, Locate(v, true, true), []);
    RunFirst(s, MarkUploading(v, true), [Locate(v, true, true)] + []);
    steps := [MarkUploading(v, true)] + ([Locate(v, true, true)] + []);
  }

  /** From any such upload on, beginning a second one has a continuation that breaks the promise. */
  lemma SecondUploadCanBreak(s: State, u: nat, v: nat, id: ObjectID, stream: Stream) returns (rest: seq<Step>)
    requires WillBeAccepted(s, u, id) && v !in s.uploads
    requires s.rows[id].fileSize == 0 ==> stream.bytes != []
    ensures CanRun(s, [BeginUpload(v, id, stream)] + rest)
    ensures BrokenPromise(Run(s, [BeginUpload(v, id, stream)] + rest), id)
  {
    var s1 := Apply(s, BeginUpload(v, id, stream));
    var check := CheckIsRun(s1, u, id);
    var s2 := Run(s1, check);
    var locate := SecondIsLocated(s2, u, v, id);
    var s3 := Run(s2, locate);
    SecondUploadBreaks(s3, u, v, id);
    var spoil := Spoil(u, v, s3.rows[id].fileSize);
    RunsCompose(s2, locate, spoil);
    RunsCompose(s1, check, locate + spoil);
    rest := check + (locate + spoil);
    RunFirst(s, BeginUpload(v, id, stream), rest);
  }

  /** That is so in every state that runs with one uploader per object can reach, wherever the first upload is. */
  lemma OneUploaderIsNeeded(digest: Digest, steps: seq<Step>, u: nat, v: nat, id: ObjectID, stream: Stream)
    returns (rest: seq<Step>)
    requires CanRun(Initial(digest), steps) && OneUploaderRun(Initial(digest), steps)
    requires var s := Run(Initial(digest), steps);
             && id in s.rows && Uploadable(s.rows[id].status) && id !in s.deleting && v !in s.uploads
             && u in s.uploads && s.uploads[u].id == id && s.uploads[u].stream.clean
             && (s.uploads[u].phase.Checked? || s.uploads[u].phase.Marked?
                 || ((s.uploads[u].phase.Located? || HasTemp(s.uploads[u].phase)) && s.uploads[u].path != ""))
             && (s.rows[id].fileSize == 0 ==> stream.bytes != [])
             && Matches(s.uploads[u].stream.bytes, s.rows[id].fileSize, s.rows[id].sha256, digest)
    ensures var s := Run(Initial(digest), steps);
            CanRun(s, [BeginUpload(v, id, stream)] + rest)
            && BrokenPromise(Run(s, [BeginUpload(v, id, stream)] + rest), id)
  {
    var s := Run(Initial(digest), steps);
    RunKeepsInv(Initial(digest), steps);
    RunKeepsPrefixes(Initial(digest), steps);
    DigestIsFixed(Initial(digest), steps);
    assert InFlight(s, u) && UploadOk(s, s.uploads[u]);
    rest := SecondUploadCanBreak(s, u, v, id, stream);
  }

  /** Where an upload stands when its temp file has just been created; `found` as in Locate. */
  function Created(s: State, u: nat, id: ObjectID, stream: Stream, found: bool): State
    requires id in s.rows
  {
    var row := s.rows[id];
    var path := PathFound(s.rows, id, found);
    s.(rows := WithStatus(s.rows, id, Uploading, 0), files := s.files[Temp(path) := []],
       uploads := s.uploads[u := Upload(id, row.fileSize, row.sha256, stream, path, [], Copying)])
  }

  lemma StartIsRun(s: State, u: nat, id: ObjectID, stream: Stream, found: bool, rest: seq<Step>)
    returns (steps: seq<Step>)
    requires u !in s.uploads && id in s.rows && Uploadable(s.rows[id].status)
    requires CanRun(Created(s, u, id, stream, found), rest)
    ensures CanRun(s, steps) && Run(s, steps) == Run(Created(s, u, id, stream, found), rest)
  {
    var t1 := Apply(s, BeginUpload(u, id, stream));
    var t2 := Apply(t1, MarkUploading(u, true));
    var t3 := Apply(t2, Locate(u, true, found));
    assert Apply(t3, CreateTemp(u, true)) == Created(s, u, id, stream, found);
    RunFirst(t3, CreateTemp(u, true), rest);
    steps := [CreateTemp(u, true)] + rest;
    RunFirst(t2, Locate(u, true, found), steps);
    steps := [Locate(u, true, found)] + steps;
    RunFirst(t1, MarkUploading(u, true), steps);
    steps := [MarkUploading(u, true)] + steps;
    RunFirst(s, BeginUpload(u, id, stream), steps);
    steps := [BeginUpload(u, id, stream)] + steps;
  }

  /**
   Two uploads of one object share a temp path, so whatever is to be uploaded, of any length and with any digest, two
   uploads of it can end in a completed row whose file has another length.
   */
  lemma TwoUploadersBreakThePromise(id: ObjectID, content: Bytes, sha256: string, digest: Digest)
    requires IsID(id) && (sha256 != "" ==> digest(content) == sha256)
    ensures exists rest :: CanRun(Initial(digest), [InitUpload(id, |content|, sha256)] + rest)
                           && BrokenPromise(Run(Initial(digest), [InitUpload(id, |content|, sha256)] + rest), id)
  {
    var s := Apply(Initial(digest), InitUpload(id, |content|, sha256));
    var t := Created(s, 0, id, Stream(content, true), true);
    var second := BeginUpload(1, id, Stream([7], true));
    var rest := SecondUploadCanBreak(t, 0, 1, id, second.stream);
    var all := StartIsRun(s, 0, id, Stream(content, true), true, [second] + rest);
    RunFirst(Initial(digest), InitUpload(id, |content|, sha256), all);
  }
}
