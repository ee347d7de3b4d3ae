/**
 The object storage as an object with its rows and files (internal/objects/storage.go, upload.go).
 Parameters say which database and file operations succeed.
 */
module ObjectStorage {
  import opened Wrappers
  import opened ObjectStore
  import opened UploadProtocol

  datatype InitError = TooLarge | InsertFailed

  /** Which of an object's own operations succeed when it is collected: its scan, its file's removal, its row's. */
  datatype Luck = Luck(scanned: set<ObjectID>, removed: set<ObjectID>, deleted: set<ObjectID>)

  /** Which operations of an upload succeed; the write of the read with number `failsAt` does not. */
  datatype UploadLuck = UploadLuck(queried: bool, marked: bool, dirMade: bool, found: bool, created: bool,
                                   failsAt: Option<nat>, closed: bool, renamed: bool, completed: bool,
                                   failureMarked: bool)

  const ALL_WELL := UploadLuck(true, true, true, true, true, None, true, true, true, true)

  /** The bytes of a stream, however it was cut into reads. */
  function Flat(chunks: seq<Bytes>): Bytes {
    if chunks == [] then [] else Flat(chunks[..|chunks| - 1]) + chunks[|chunks| - 1]
  }

  /** Nothing is lost, added or moved between the reads. */
  lemma {:induction false} FlatMeans(a: seq<Bytes>, b: seq<Bytes>, chunk: Bytes)
    ensures Flat([chunk]) == chunk && Flat(a + b) == Flat(a) + Flat(b)
    decreases |b|
  {
    assert [chunk][..0] == [];
    if b == [] {
      assert a + b == a;
    } else {
      assert (a + b)[..|a + b| - 1] == a + b[..|b| - 1];
      FlatMeans(a, b[..|b| - 1], chunk);
    }
  }

  lemma FlatNext(chunks: seq<Bytes>, i: nat)
    requires i < |chunks|
    ensures Flat(chunks[..i + 1]) == Flat(chunks[..i]) + chunks[i]
  {
    assert chunks[..i + 1][..i] == chunks[..i];
  }

  lemma {:induction false} FlatPrefix(chunks: seq<Bytes>, i: nat)
    requires i <= |chunks|
    ensures Flat(chunks[..i]) <= Flat(chunks)
    decreases |chunks| - i
  {
    if i == |chunks| {
      assert chunks[..i] == chunks;
    } else {
      FlatNext(chunks, i);
      FlatPrefix(chunks, i + 1);
    }
  }

  /** What io.CopyN takes: everything, or the first `limit` bytes. */
  function Taken(bytes: Bytes, limit: int): Bytes {
    if limit <= 0 then [] else if |bytes| <= limit then bytes else bytes[..limit]
  }

  /** What the copy takes of the next read. */
  function NextChunk(chunks: seq<Bytes>, i: nat, written: Bytes, limit: int): Bytes
    requires i < |chunks| && |written| < limit
  {
    if |chunks[i]| <= limit - |written| then chunks[i] else chunks[i][..limit - |written|]
  }

  lemma TakeNext(chunks: seq<Bytes>, i: nat, written: Bytes, limit: int)
    requires i < |chunks| && |written| < limit && written == Flat(chunks[..i])
    ensures var chunk := NextChunk(chunks, i, written, limit);
            && written + chunk == Taken(Flat(chunks[..i + 1]), limit)
            && (|written + chunk| < limit ==> written + chunk == Flat(chunks[..i + 1]))
            && |written| + |chunk| <= |Flat(chunks)| && Flat(chunks)[|written|..|written| + |chunk|] == chunk
  {
    FlatNext(chunks, i);
    FlatPrefix(chunks, i + 1);
    var all := Flat(chunks[..i + 1]);
    assert all == Flat(chunks)[..|all|];
  }

  lemma {:induction false} FlatMonotone(chunks: seq<Bytes>, i: nat, j: nat)
    requires i <= j <= |chunks|
    ensures |Flat(chunks[..i])| <= |Flat(chunks[..j])|
    decreases j - i
  {
    if i < j {
      FlatNext(chunks, i);
      FlatMonotone(chunks, i + 1, j);
    }
  }

  /** The copy comes to the write that fails. */
  predicate Breaks(chunks: seq<Bytes>, limit: int, failsAt: Option<nat>) {
    failsAt.Some? && failsAt.value < |chunks| && |Flat(chunks[..failsAt.value])| < limit && chunks[failsAt.value] != []
  }

  function Written(chunks: seq<Bytes>, limit: int, failsAt: Option<nat>): Bytes {
    if Breaks(chunks, limit, failsAt) then Flat(chunks[..failsAt.value]) else Taken(Flat(chunks), limit)
  }

  /** The copy breaks off exactly at a failing write that it comes to; else it takes all, or the first `limit` bytes. */
  lemma CopyMeans(chunks: seq<Bytes>, limit: int, failsAt: Option<nat>)
    ensures Breaks(chunks, limit, failsAt)
            <==> failsAt.Some? && failsAt.value < |chunks| && chunks[failsAt.value] != []
                 && |Flat(chunks[..failsAt.value])| < limit
    ensures Breaks(chunks, limit, failsAt) ==> Written(chunks, limit, failsAt) == Flat(chunks[..failsAt.value])
    ensures !Breaks(chunks, limit, failsAt) && |Flat(chunks)| <= limit ==>
              Written(chunks, limit, failsAt) == Flat(chunks)
    ensures !Breaks(chunks, limit, failsAt) && 0 <= limit < |Flat(chunks)| ==>
              Written(chunks, limit, failsAt) == Flat(chunks)[..limit]
  {
  }

  lemma AppendChunk(files: Files, path: Path, written: Bytes, chunk: Bytes)
    requires path in files
    ensures files[path := files[path] + written][path := (files[path] + written) + chunk]
            == files[path := files[path] + (written + chunk)]
  {
    assert (files[path] + written) + chunk == files[path] + (written + chunk);
  }

  lemma CopiedInto(files: Files, path: Path, written: Bytes)
    requires path in files && files[path] == []
    ensures files[path := files[path] + written] == files[path := written]
  {
    assert [] + written == written;
  }

  /** At the end of a copy in which no write failed. */
  lemma NoBreak(chunks: seq<Bytes>, limit: int, failsAt: Option<nat>, i: nat)
    requires i <= |chunks| && (failsAt.Some? && failsAt.value < i ==> chunks[failsAt.value] == [])
    requires i == |chunks| || limit <= |Taken(Flat(chunks[..i]), limit)|
    ensures !Breaks(chunks, limit, failsAt)
    ensures Taken(Flat(chunks[..i]), limit) == Taken(Flat(chunks), limit)
  {
    FlatPrefix(chunks, i);
    assert chunks[..|chunks|] == chunks;
    if failsAt.Some? && i <= failsAt.value < |chunks| {
      FlatMonotone(chunks, i, failsAt.value);
    }
  }

  // ---------------------------------------------------------------- the cleanup loop

  /** What the cleanup's query returns. */
  function ExpiredIDs(rows: Rows, now: int): set<ObjectID> {
    set id | id in rows && RowExpired(rows[id], now)
  }

  function RowsWithout(rows: Rows, done: set<ObjectID>): Rows {
    map id | id in rows && id !in done :: rows[id]
  }

  function FilesWithout(rows: Rows, files: Files, done: set<ObjectID>): Files {
    map p | p in files && (forall id :: id in done && id in rows ==> p != rows[id].storagePath) :: files[p]
  }

  /** Rows and files that a cleanup takes of the expired objects in `ids`. */
  function RowsTaken(ids: set<ObjectID>, luck: Luck): set<ObjectID> {
    ids * luck.scanned * luck.deleted
  }

  function FilesTaken(ids: set<ObjectID>, luck: Luck): set<ObjectID> {
    ids * luck.scanned * luck.removed
  }

  /** What is left, and how many rows are gone, once the objects in `done` have been dealt with. */
  ghost predicate Cleaned(rows0: Rows, files0: Files, luck: Luck, done: set<ObjectID>, rows: Rows, files: Files,
                          count: int) {
    && rows == RowsWithout(rows0, RowsTaken(done, luck))
    && files == FilesWithout(rows0, files0, FilesTaken(done, luck))
    && count == |RowsTaken(done, luck)|
  }

  lemma CleanedNone(rows: Rows, files: Files, luck: Luck, ids: set<ObjectID>)
    ensures Cleaned(rows, files, luck, ids - ids, rows, files, 0)
  {
    assert ids - ids == {};
    assert RowsTaken({}, luck) == {} && FilesTaken({}, luck) == {};
  }

  /** What one round of the loop leaves. */
  function RowsNext(rows: Rows, luck: Luck, id: ObjectID): Rows {
    if id in luck.scanned && id in luck.deleted then Without(rows, id) else rows
  }

  function FilesNext(rows: Rows, files: Files, luck: Luck, id: ObjectID): Files
    requires id in rows
  {
    if id in luck.scanned && id in luck.removed then Without(files, rows[id].storagePath) else files
  }

  /** One round of the loop, with `todo` of `ids` still before it. */
  lemma CleanOne(rows0: Rows, files0: Files, luck: Luck, ids: set<ObjectID>, todo: set<ObjectID>,
                 rows: Rows, files: Files, count: int, id: ObjectID)
    requires Cleaned(rows0, files0, luck, ids - todo, rows, files, count) && id in todo && todo <= ids <= rows0.Keys
    ensures id in rows
    ensures var next := RowsNext(rows, luck, id);
            Cleaned(rows0, files0, luck, ids - (todo - {id}), next, FilesNext(rows, files, luck, id),
                    count + |rows| - |next|)
  {
    var done := ids - todo;
    assert ids - (todo - {id}) == done + {id};
    RowTaken(rows0, luck, done, id);
    FileTaken(rows0, files0, luck, done, id);
  }

  lemma RowTaken(rows0: Rows, luck: Luck, done: set<ObjectID>, id: ObjectID)
    requires id in rows0 && id !in done
    ensures var rows := RowsWithout(rows0, RowsTaken(done, luck));
            && RowsWithout(rows0, RowsTaken(done + {id}, luck)) == RowsNext(rows, luck, id)
            && |RowsTaken(done + {id}, luck)| == |RowsTaken(done, luck)| + |rows| - |RowsNext(rows, luck, id)|
  {
    var rows := RowsWithout(rows0, RowsTaken(done, luck));
    if id in luck.scanned && id in luck.deleted {
      assert RowsTaken(done + {id}, luck) == RowsTaken(done, luck) + {id};
      OneRowLess(rows, id);
    } else {
      assert RowsTaken(done + {id}, luck) == RowsTaken(done, luck);
    }
  }

  lemma OneRowLess(rows: Rows, id: ObjectID)
    requires id in rows
    ensures |Without(rows, id)| == |rows| - 1
  {
    assert Without(rows, id).Keys == rows.Keys - {id};
    assert |rows| == |rows.Keys| && |Without(rows, id)| == |Without(rows, id).Keys|;
  }

  lemma FileTaken(rows0: Rows, files0: Files, luck: Luck, done: set<ObjectID>, id: ObjectID)
    requires id in rows0 && id !in done
    ensures var files := FilesWithout(rows0, files0, FilesTaken(done, luck));
            FilesWithout(rows0, files0, FilesTaken(done + {id}, luck)) == FilesNext(rows0, files, luck, id)
  {
    if id in luck.scanned && id in luck.removed {
      assert FilesTaken(done + {id}, luck) == FilesTaken(done, luck) + {id};
    } else {
      assert FilesTaken(done + {id}, luck) == FilesTaken(done, luck);
    }
  }

  lemma CleanedAll(rows0: Rows, files0: Files, luck: Luck, ids: set<ObjectID>, rows: Rows, files: Files, count: int)
    requires Cleaned(rows0, files0, luck, ids - {}, rows, files, count)
    ensures Cleaned(rows0, files0, luck, ids, rows, files, count) && (RowsOk(rows0) ==> RowsOk(rows))
  {
    assert ids - {} == ids;
  }

  /** An object whose expiry has passed, and that the loop comes to. */
  predicate Comes(rows: Rows, now: int, luck: Luck, id: ObjectID) {
    id in rows && rows[id].expiresAt.Some? && rows[id].expiresAt.value < now && id in luck.scanned
  }

  /** Object by object and file by file: what stays, what goes, and how many rows go. */
  ghost predicate OnlyExpiredGo(rows0: Rows, files0: Files, now: int, luck: Luck, rows: Rows, files: Files,
                                count: int) {
    && (forall id :: id in rows <==> id in rows0 && !(Comes(rows0, now, luck, id) && id in luck.deleted))
    && (forall id :: id in rows ==> rows[id] == rows0[id])
    && (forall p :: p in files
          <==> p in files0
               && forall id :: Comes(rows0, now, luck, id) && id in luck.removed ==> p != rows0[id].storagePath)
    && (forall p :: p in files ==> files[p] == files0[p])
    && count == |rows0| - |rows|
  }

  lemma CountTaken(rows0: Rows, ids: set<ObjectID>)
    requires ids <= rows0.Keys
    ensures |ids| == |rows0| - |RowsWithout(rows0, ids)|
  {
    var rows := RowsWithout(rows0, ids);
    assert rows.Keys == rows0.Keys - ids;
    assert |rows0| == |rows0.Keys| && |rows| == |rows.Keys|;
  }

  lemma CleanedMeans(rows0: Rows, files0: Files, now: int, luck: Luck, rows: Rows, files: Files, count: int)
    requires Cleaned(rows0, files0, luck, ExpiredIDs(rows0, now), rows, files, count)
    ensures OnlyExpiredGo(rows0, files0, now, luck, rows, files, count)
  {
    var ids := ExpiredIDs(rows0, now);
    forall id ensures Comes(rows0, now, luck, id) <==> id in ids && id in luck.scanned {}
    CountTaken(rows0, RowsTaken(ids, luck));
    forall p ensures p in files
                     <==> p in files0 && forall id :: Comes(rows0, now, luck, id) && id in luck.removed ==>
                                                        p != rows0[id].storagePath {
      assert p in files <==> p in files0 && forall id :: id in FilesTaken(ids, luck) && id in rows0 ==>
                                                           p != rows0[id].storagePath;
    }
  }

  /** When every operation succeeds, exactly the expired rows and their files go. */
  lemma LuckyCleanupTakesAll(rows: Rows, files: Files, now: int, luck: Luck)
    requires ExpiredIDs(rows, now) <= luck.scanned * luck.removed * luck.deleted
    ensures RowsWithout(rows, RowsTaken(ExpiredIDs(rows, now), luck)) == RowsAfterCleanup(rows, now)
    ensures FilesWithout(rows, files, FilesTaken(ExpiredIDs(rows, now), luck)) == FilesAfterCleanup(rows, files, now)
    ensures |RowsTaken(ExpiredIDs(rows, now), luck)| == |rows| - |RowsAfterCleanup(rows, now)|
  {
    var ids := ExpiredIDs(rows, now);
    assert RowsTaken(ids, luck) == ids && FilesTaken(ids, luck) == ids;
    AllRowsCleaned(rows, now);
    AllFilesCleaned(rows, files, now);
  }

  lemma AllRowsCleaned(rows0: Rows, now: int)
    ensures RowsWithout(rows0, ExpiredIDs(rows0, now)) == RowsAfterCleanup(rows0, now)
    ensures |ExpiredIDs(rows0, now)| == |rows0| - |RowsAfterCleanup(rows0, now)|
  {
    var rows := RowsAfterCleanup(rows0, now);
    assert rows.Keys == rows0.Keys - ExpiredIDs(rows0, now);
    assert |rows0| == |rows0.Keys| && |rows| == |rows.Keys|;
  }

  lemma AllFilesCleaned(rows0: Rows, files0: Files, now: int)
    ensures FilesWithout(rows0, files0, ExpiredIDs(rows0, now)) == FilesAfterCleanup(rows0, files0, now)
  {
  }

  class Storage {
    const digest: Digest
    const maxFileSize: int
    var rows: Rows
    var files: Files

    ghost predicate Valid()
      reads this
    {
      RowsOk(rows)
    }

    ghost predicate Shows(s: State)
      reads this
    {
      s.digest == digest && s.rows == rows && s.files == files
    }

    constructor (digest: Digest, maxFileSize: int)
      ensures Valid() && rows == map[] && files == map[] && this.digest == digest && this.maxFileSize == maxFileSize
    {
      this.digest := digest;
      this.maxFileSize := maxFileSize;
      rows, files := map[], map[];
    }

    /** `id` is the UUID drawn for the object. */
    method InitUpload(fileSize: int, sha256: string, id: ObjectID, executed: bool)
      returns (r: Result<ObjectID, InitError>)
      requires Valid() && IsID(id)
      modifies this`rows
      ensures Valid()
      ensures r == Err(TooLarge) <==> fileSize > maxFileSize
      ensures r.Ok? <==> fileSize <= maxFileSize && id !in old(rows) && executed
      ensures r.Ok? ==> r.value == id && id in rows && Without(rows, id) == old(rows)
      ensures r.Ok? ==> rows[id] == Row(fileSize, sha256, Pending, StoragePath(id), None, None)
      ensures r.Err? ==> rows == old(rows)
    {
      if fileSize > maxFileSize {
        return Err(TooLarge);
      }
      if id in rows || !executed {
        return Err(InsertFailed);
      }
      rows := rows[id := NewRow(id, fileSize, sha256)];
      return Ok(id);
    }

    method UpdateObjectStatus(id: ObjectID, status: Status, now: int, executed: bool) returns (ok: bool)
      requires Valid()
      modifies this`rows
      ensures Valid() && (ok <==> executed && id in old(rows))
      ensures rows == if executed then WithStatus(old(rows), id, status, now) else old(rows)
      ensures ok ==>
                rows == old(rows)[id := old(rows)[id].(
                  status := status,
                  completedAt := if status == Completed then Some(now) else old(rows)[id].completedAt)]
    {
      ok := executed && id in rows;
      if ok {
        var row := rows[id].(status := status);
        rows := rows[id := if status == Completed then row.(completedAt := Some(now)) else row];
      }
    }

    method SetObjectExpiration(id: ObjectID, expiresAt: int, executed: bool) returns (ok: bool)
      requires Valid()
      modifies this`rows
      ensures Valid() && ok == executed
      ensures rows == if executed && id in old(rows) then old(rows)[id := old(rows)[id].(expiresAt := Some(expiresAt))]
                      else old(rows)
    {
      if executed && id in rows {
        rows := rows[id := rows[id].(expiresAt := Some(expiresAt))];
      }
      return executed;
    }

    /** `queried`, `removed` and `executed`: reading the row, removing the file and deleting the row. */
    method DeleteObject(id: ObjectID, queried: bool, removed: bool, executed: bool) returns (ok: bool)
      requires Valid()
      modifies this
      ensures Valid() && (ok <==> queried && id in old(rows) && executed)
      ensures rows == if ok then Without(old(rows), id) else old(rows)
      ensures files == if queried && id in old(rows) && removed then Without(old(files), StoragePath(id))
                       else old(files)
    {
      if !queried || id !in rows {
        return false;
      }
      if removed {
        files := Without(files, rows[id].storagePath);
      }
      if !executed {
        return false;
      }
      rows := Without(rows, id);
      return true;
    }

    /**
     Rows past their expiry go with their files, except where an operation on the object fails; the count is what is
     logged; nothing else is touched.
     */
    method CleanupExpiredObjects(now: int, queried: bool, luck: Luck) returns (ok: bool, deletedCount: nat)
      requires Valid()
      modifies this
      ensures Valid() && ok == queried
      ensures !queried ==> rows == old(rows) && files == old(files)
      ensures queried ==>
                Cleaned(old(rows), old(files), luck, ExpiredIDs(old(rows), now), rows, files, deletedCount)
                && OnlyExpiredGo(old(rows), old(files), now, luck, rows, files, deletedCount)
    {
      ok, deletedCount := queried, 0;
      if queried {
        deletedCount := CollectAll(ExpiredIDs(rows, now), luck);
        CleanedMeans(old(rows), old(files), now, luck, rows, files, deletedCount);
      }
    }

    /** The loop over the query's results. */
    method CollectAll(ids: set<ObjectID>, luck: Luck) returns (deletedCount: nat)
      requires Valid() && ids <= rows.Keys
      modifies this
      ensures Valid() && Cleaned(old(rows), old(files), luck, ids, rows, files, deletedCount)
    {
      ghost var rows0, files0 := rows, files;
      var todo := ids;
      deletedCount := 0;
      CleanedNone(rows, files, luck, ids);
      while todo != {}
        invariant todo <= ids
        invariant Cleaned(rows0, files0, luck, ids - todo, rows, files, deletedCount)
        decreases todo
      {
        var id :| id in todo;
        CleanOne(rows0, files0, luck, ids, todo, rows, files, deletedCount, id);
        var deleted := CollectObject(id, luck);
        deletedCount := deletedCount + deleted;
        todo := todo - {id};
      }
      CleanedAll(rows0, files0, luck, ids, rows, files, deletedCount);
    }

    /** The body of the loop, for one expired object; the number of rows deleted. */
    method CollectObject(id: ObjectID, luck: Luck) returns (deleted: nat)
      requires id in rows
      modifies this
      ensures rows == RowsNext(old(rows), luck, id) && files == FilesNext(old(rows), old(files), luck, id)
      ensures deleted == |old(rows)| - |rows|
    {
      deleted := 0;
      if id in luck.scanned {
        if id in luck.removed {
          files := Without(files, rows[id].storagePath);
        }
        if id in luck.deleted {
          OneRowLess(rows, id);
          rows := Without(rows, id);
          deleted := 1;
        }
      }
    }

    /** `queried` and `found`: reading the row, and reading it again for its path; then removal and status write. */
    method CancelUpload(id: ObjectID, queried: bool, found: bool, removed: bool, executed: bool) returns (ok: bool)
      requires Valid()
      modifies this
      ensures Valid()
      ensures var begun := queried && id in old(rows) && Uploadable(old(rows)[id].status);
              && (ok <==> begun && executed)
              && rows == (if ok then WithStatus(old(rows), id, Failed, 0) else old(rows))
              && files == if begun && removed then Without(old(files), Temp(PathFound(old(rows), id, found)))
                          else old(files)
      ensures ok ==> old(rows)[id].status == Pending || old(rows)[id].status == Uploading
      ensures ok ==> rows[id].status == Failed
      ensures ok <== (queried && executed && id in old(rows)
                      && (old(rows)[id].status == Pending || old(rows)[id].status == Uploading))
    {
      if !queried || id !in rows || !Uploadable(rows[id].status) {
        return false;
      }
      if removed {
        files := Without(files, Temp(PathFound(rows, id, found)));
      }
      ok := UpdateObjectStatus(id, Failed, 0, executed);
    }

    // -------------------------------------------------------------- HandleUpload

    /** The loop of io.CopyN: one write per read until the limit, for every way the stream is cut into reads. */
    method CopyN(path: Path, chunks: seq<Bytes>, limit: int, failsAt: Option<nat>) returns (written: Bytes, broke: bool)
      requires path in files
      modifies this`files
      ensures broke == Breaks(chunks, limit, failsAt) && written == Written(chunks, limit, failsAt)
      ensures files == old(files)[path := old(files)[path] + written]
    {
      written := [];
      var i := 0;
      ghost var files0 := files;
      assert files[path] + [] == files[path];
      while i < |chunks| && |written| < limit
        invariant i <= |chunks| && written == Taken(Flat(chunks[..i]), limit)
        invariant |written| < limit ==> written == Flat(chunks[..i])
        invariant failsAt.Some? && failsAt.value < i ==> chunks[failsAt.value] == []
        invariant files == files0[path := files0[path] + written]
      {
        if failsAt == Some(i) && chunks[i] != [] {
          return written, true;
        }
        TakeNext(chunks, i, written, limit);
        var chunk := NextChunk(chunks, i, written, limit);
        AppendChunk(files0, path, written, chunk);
        files := files[path := files[path] + chunk];
        written := written + chunk;
        i := i + 1;
      }
      NoBreak(chunks, limit, failsAt, i);
      return written, false;
    }

    /** Up to the creation of the temp file. */
    method StartUpload(id: ObjectID, now: int, luck: UploadLuck) returns (fullPath: Option<Path>)
      requires Valid() && id in rows
      modifies this
      ensures Valid() && Start(rows, files, fullPath) == Started(old(rows), old(files), id, now, luck)
    {
      var ok := UpdateObjectStatus(id, Uploading, now, luck.marked);
      if !ok {
        return None;
      }
      if !luck.dirMade {
        ok := UpdateObjectStatus(id, Failed, now, luck.failureMarked);
        return None;
      }
      var path := PathFound(rows, id, luck.found);
      if !luck.created {
        ok := UpdateObjectStatus(id, Failed, now, luck.failureMarked);
        return None;
      }
      files := files[Temp(path) := []];
      return Some(path);
    }

    /** Every error return of HandleUpload after the temp file exists; `discard` is what the deferred function finds. */
    method FailUpload(id: ObjectID, tempPath: Path, discard: bool, now: int, marked: bool)
      requires Valid() && id in rows
      modifies this
      ensures Valid() && rows == FailedRows(old(rows), id, now, marked)
      ensures files == if discard then Without(old(files), tempPath) else old(files)
    {
      var found := UpdateObjectStatus(id, Failed, now, marked);
      if discard {
        files := Without(files, tempPath);
      }
    }

    /** The rename has succeeded. */
    method AcceptUpload(id: ObjectID, fullPath: Path, now: int, completed: bool) returns (ok: bool)
      requires Valid() && id in rows && Temp(fullPath) in files
      modifies this
      ensures Valid() && ok == completed
      ensures rows == if completed then WithStatus(old(rows), id, Completed, now) else old(rows)
      ensures files == Without(old(files)[fullPath := old(files)[Temp(fullPath)]], Temp(fullPath))
    {
      files := files[fullPath := files[Temp(fullPath)]];
      files := Without(files, Temp(fullPath));
      ok := UpdateObjectStatus(id, Completed, now, completed);
    }

    /** The tests after the copy, and what follows from them. */
    method DecideUpload(id: ObjectID, fullPath: Path, fileSize: int, sha256: string, written: Bytes, clean: bool,
                        now: int, luck: UploadLuck)
      returns (ok: bool)
      requires Valid() && id in rows && Temp(fullPath) in files && files[Temp(fullPath)] == written
      modifies this
      ensures Valid()
      ensures Outcome(rows, files, ok)
              == Decision(old(rows), old(files), id, fullPath, fileSize, sha256, written, clean, digest, now, luck)
    {
      // err is nil when the limit was reached, io.EOF, or the error of a read or write otherwise.
      var reachedLimit := fileSize + 1 <= |written|;
      if (!reachedLimit && !clean) || |written| != fileSize {
        FailUpload(id, Temp(fullPath), !reachedLimit, now, luck.failureMarked);
        return false;
      }
      if !luck.closed || (sha256 != "" && sha256 != digest(written)) {
        FailUpload(id, Temp(fullPath), true, now, luck.failureMarked);
        return false;
      }
      if !luck.renamed || fullPath == "" {
        FailUpload(id, Temp(fullPath), true, now, luck.failureMarked);
        return false;
      }
      ok := AcceptUpload(id, fullPath, now, luck.completed);
    }

    /** From the creation of the temp file on. */
    method ReceiveUpload(id: ObjectID, fullPath: Path, fileSize: int, sha256: string, chunks: seq<Bytes>, clean: bool,
                         now: int, luck: UploadLuck)
      returns (ok: bool)
      requires Valid() && id in rows && Temp(fullPath) in files && files[Temp(fullPath)] == []
      modifies this
      ensures Valid()
      ensures Outcome(rows, files, ok)
              == Received(old(rows), old(files), id, fullPath, fileSize, sha256, chunks, clean, digest, now, luck)
    {
      var written, broke := CopyN(Temp(fullPath), chunks, fileSize + 1, luck.failsAt);
      CopiedInto(old(files), Temp(fullPath), written);
      ok := DecideUpload(id, fullPath, fileSize, sha256, written, clean && !broke, now, luck);
    }

    /** `chunks` are the successive reads of the body; `clean` is false when the last one is followed by an error. */
    method HandleUpload(id: ObjectID, chunks: seq<Bytes>, clean: bool, now: int, luck: UploadLuck) returns (ok: bool)
      requires Valid()
      modifies this
      ensures Valid()
      ensures Outcome(rows, files, ok)
              == AfterUploadWith(old(rows), old(files), id, chunks, clean, digest, now, luck)
      ensures id in old(rows) && (old(rows)[id].status == Completed || old(rows)[id].status == Failed) ==>
                !ok && rows == old(rows) && files == old(files)
    {
      if !luck.queried || id !in rows || !Uploadable(rows[id].status) {
        return false;
      }
      var obj := rows[id];
      var fullPath := StartUpload(id, now, luck);
      if fullPath.None? {
        return false;
      }
      ok := ReceiveUpload(id, fullPath.value, obj.fileSize, obj.sha256, chunks, clean, now, luck);
    }
  }

  // ---------------------------------------------------------------- what an upload comes to

  datatype Outcome = Outcome(rows: Rows, files: Files, ok: bool)

  /** Rows, files, and the path if the temp file was created. */
  datatype Start = Start(rows: Rows, files: Files, path: Option<Path>)

  function FailedRows(rows: Rows, id: ObjectID, now: int, marked: bool): Rows {
    if marked then WithStatus(rows, id, Failed, now) else rows
  }

  function Started(rows: Rows, files: Files, id: ObjectID, now: int, luck: UploadLuck): Start {
    if !luck.marked then Start(rows, files, None)
    else
      var marked := WithStatus(rows, id, Uploading, now);
      var path := PathFound(rows, id, luck.found);
      if luck.dirMade && luck.created then Start(marked, files[Temp(path) := []], Some(path))
      else Start(FailedRows(marked, id, now, luck.failureMarked), files, None)
  }

  /** Where the tests after the copy lead from the rows and files there are then. */
  function Decision(rows: Rows, files: Files, id: ObjectID, path: Path, fileSize: int, sha256: string, written: Bytes,
                    clean: bool, digest: Digest, now: int, luck: UploadLuck): Outcome {
    var failed := FailedRows(rows, id, now, luck.failureMarked);
    var short := |written| < fileSize + 1;
    if (short && !clean) || |written| != fileSize then
      Outcome(failed, if short then Without(files, Temp(path)) else files, false)
    else if !luck.closed || (sha256 != "" && sha256 != digest(written)) || !luck.renamed || path == "" then
      Outcome(failed, Without(files, Temp(path)), false)
    else
      Outcome(if luck.completed then WithStatus(rows, id, Completed, now) else rows,
              Without(files[path := written], Temp(path)), luck.completed)
  }

  function AfterUploadWith(rows: Rows, files: Files, id: ObjectID, chunks: seq<Bytes>, clean: bool, digest: Digest,
                           now: int, luck: UploadLuck): Outcome {
    if !luck.queried || id !in rows || !Uploadable(rows[id].status) then Outcome(rows, files, false)
    else
      var start := Started(rows, files, id, now, luck);
      if start.path.None? then Outcome(start.rows, start.files, false)
      else
        Received(start.rows, start.files, id, start.path.value, rows[id].fileSize, rows[id].sha256, chunks, clean,
                 digest, now, luck)
  }

  /** The copy and the tests after it. */
  function Received(rows: Rows, files: Files, id: ObjectID, path: Path, fileSize: int, sha256: string,
                    chunks: seq<Bytes>, clean: bool, digest: Digest, now: int, luck: UploadLuck): Outcome {
    var written := Written(chunks, fileSize + 1, luck.failsAt);
    Decision(rows, files[Temp(path) := written], id, path, fileSize, sha256, written,
             clean && !Breaks(chunks, fileSize + 1, luck.failsAt), digest, now, luck)
  }

  /** When no operation fails, all that matters of the stream is its bytes and whether it ended cleanly. */
  function AfterUpload(rows: Rows, files: Files, id: ObjectID, bytes: Bytes, clean: bool, digest: Digest, now: int)
    : Outcome
  {
    if id !in rows || !Uploadable(rows[id].status) then Outcome(rows, files, false)
    else
      var path := rows[id].storagePath;
      if clean && Matches(bytes, rows[id].fileSize, rows[id].sha256, digest) then
        Outcome(WithStatus(rows, id, Completed, now), Without(files[path := bytes], Temp(path)), true)
      else
        Outcome(WithStatus(rows, id, Failed, now),
                if |bytes| > rows[id].fileSize then files[Temp(path) := Taken(bytes, rows[id].fileSize + 1)]
                else Without(files, Temp(path)),
                false)
  }

  /** The decision on the bytes taken is the one on the whole stream. */
  lemma DecisionIsAfterUpload(rows: Rows, files: Files, id: ObjectID, bytes: Bytes, clean: bool, digest: Digest,
                              now: int)
    requires RowsOk(rows) && id in rows && Uploadable(rows[id].status)
    ensures var row := rows[id];
            var path := row.storagePath;
            var written := Taken(bytes, row.fileSize + 1);
            Decision(WithStatus(rows, id, Uploading, now), files[Temp(path) := written], id, path, row.fileSize,
                     row.sha256, written, clean, digest, now, ALL_WELL)
            == AfterUpload(rows, files, id, bytes, clean, digest, now)
  {
    PathsAreApart(id, id, StoragePath(id), "");
    RowBooks(rows, id, now);
    FileBooks(files, rows[id].storagePath, Taken(bytes, rows[id].fileSize + 1));
  }

  lemma AllWellIsAfterUpload(rows: Rows, files: Files, id: ObjectID, chunks: seq<Bytes>, clean: bool, digest: Digest,
                             now: int)
    requires RowsOk(rows)
    ensures AfterUploadWith(rows, files, id, chunks, clean, digest, now, ALL_WELL)
            == AfterUpload(rows, files, id, Flat(chunks), clean, digest, now)
  {
    if id in rows && Uploadable(rows[id].status) {
      var path, written := rows[id].storagePath, Taken(Flat(chunks), rows[id].fileSize + 1);
      assert files[Temp(path) := []][Temp(path) := written] == files[Temp(path) := written];
      DecisionIsAfterUpload(rows, files, id, Flat(chunks), clean, digest, now);
    }
  }

  /** What the intermediate rows and files of an upload come to in the end. */
  lemma RowBooks(rows: Rows, id: ObjectID, now: int)
    requires id in rows
    ensures var marked := WithStatus(rows, id, Uploading, now);
            && LookupPath(marked, id) == rows[id].storagePath
            && WithStatus(marked, id, Failed, now) == WithStatus(rows, id, Failed, now)
            && WithStatus(marked, id, Completed, now) == WithStatus(rows, id, Completed, now)
  {
  }

  lemma FileBooks(files: Files, path: Path, written: Bytes)
    requires Temp(path) != path
    ensures var copied := files[Temp(path) := written];
            && Without(copied, Temp(path)) == Without(files, Temp(path))
            && Without(copied[path := written], Temp(path)) == Without(files[path := written], Temp(path))
  {
  }

  // ---------------------------------------------------------------- exact-length acceptance

  /**
   Accepted exactly when the stream ends cleanly after the announced number of bytes with the announced digest;
   then the final file is the stream. Otherwise no final file of any object changes, and the temp file is left
   behind exactly when the stream was too long.
   */
  lemma ExactAcceptance(rows: Rows, files: Files, id: ObjectID, chunks: seq<Bytes>, clean: bool, digest: Digest,
                        now: int)
    requires RowsOk(rows) && id in rows && Uploadable(rows[id].status)
    ensures var after := AfterUpload(rows, files, id, Flat(chunks), clean, digest, now);
            && (after.rows[id].status == Completed <==>
                  clean && |Flat(chunks)| == rows[id].fileSize
                  && (rows[id].sha256 == "" || digest(Flat(chunks)) == rows[id].sha256))
            && (after.ok <==> after.rows[id].status == Completed)
            && (after.ok ==> StoragePath(id) in after.files && after.files[StoragePath(id)] == Flat(chunks))
            && (!after.ok ==> after.rows[id].status == Failed)
            && (!after.ok ==> (StoragePath(id) in after.files <==> StoragePath(id) in files))
            && (!after.ok && StoragePath(id) in files ==> after.files[StoragePath(id)] == files[StoragePath(id)])
            && (Temp(StoragePath(id)) in after.files <==> |Flat(chunks)| > rows[id].fileSize)
            && (forall other :: other in rows && other != id ==>
                  after.rows[other] == rows[other]
                  && (StoragePath(other) in after.files <==> StoragePath(other) in files)
                  && (StoragePath(other) in files ==> after.files[StoragePath(other)] == files[StoragePath(other)]))
  {
    PathsAreApart(id, id, StoragePath(id), "");
    forall other | other in rows ensures Temp(StoragePath(id)) != StoragePath(other)
                                         && (other != id ==> StoragePath(other) != StoragePath(id)) {
      PathsAreApart(id, other, StoragePath(id), "");
    }
  }

  /** Every operation that acceptance needs. */
  predicate WellEnough(luck: UploadLuck) {
    luck.queried && luck.marked && luck.dirMade && luck.found && luck.created && luck.closed && luck.renamed
    && luck.completed
  }

  /** The final file of an object is there or not, as it was. */
  predicate SameFile(files: Files, after: Files, id: ObjectID) {
    && (StoragePath(id) in after <==> StoragePath(id) in files)
    && (StoragePath(id) in files ==> after[StoragePath(id)] == files[StoragePath(id)])
  }

  /** What the copy and the tests accept, and what becomes of the final file. */
  lemma ReceivedAccepts(rows: Rows, files: Files, id: ObjectID, path: Path, fileSize: int, sha256: string,
                        chunks: seq<Bytes>, clean: bool, digest: Digest, now: int, luck: UploadLuck)
    requires IsID(id) && PathOf(path, id) && id in rows && rows[id].status != Completed
    ensures var d := Received(rows, files, id, path, fileSize, sha256, chunks, clean, digest, now, luck);
            var fits := luck.closed && luck.renamed && path != "" && clean
                        && !Breaks(chunks, fileSize + 1, luck.failsAt)
                        && Matches(Flat(chunks), fileSize, sha256, digest);
            && id in d.rows && (d.ok <==> fits && luck.completed) && (d.rows[id].status == Completed <==> d.ok)
            && (fits ==> StoragePath(id) in d.files && d.files[StoragePath(id)] == Flat(chunks))
            && (!fits ==> SameFile(files, d.files, id))
  {
    PathsAreApart(id, id, path, "");
  }

  /**
   With failing operations: accepted exactly when every operation it needs succeeds and the stream ends cleanly after
   the announced number of bytes with the announced digest. The final file then is the stream, and it changes otherwise
   only when nothing but the last status write fails.
   */
  lemma AcceptedIff(rows: Rows, files: Files, id: ObjectID, chunks: seq<Bytes>, clean: bool, digest: Digest, now: int,
                    luck: UploadLuck)
    requires RowsOk(rows) && id in rows && (rows[id].status == Pending || rows[id].status == Uploading)
    ensures var after := AfterUploadWith(rows, files, id, chunks, clean, digest, now, luck);
            var fits := WellEnough(luck.(completed := true)) && clean
                        && !Breaks(chunks, rows[id].fileSize + 1, luck.failsAt)
                        && Matches(Flat(chunks), rows[id].fileSize, rows[id].sha256, digest);
            && id in after.rows && (after.ok <==> fits && luck.completed)
            && (after.rows[id].status == Completed <==> after.ok)
            && (fits ==> StoragePath(id) in after.files && after.files[StoragePath(id)] == Flat(chunks))
            && (!fits ==> SameFile(files, after.files, id))
  {
    var start := Started(rows, files, id, now, luck);
    if luck.queried && start.path.Some? {
      PathsAreApart(id, id, start.path.value, "");
      ReceivedAccepts(start.rows, start.files, id, start.path.value, rows[id].fileSize, rows[id].sha256, chunks, clean,
                      digest, now, luck);
    }
  }

  /** The status an upload that has been begun leaves. */
  function FinalStatus(fits: bool, luck: UploadLuck): Status {
    if fits && luck.completed then Completed else if !fits && luck.failureMarked then Failed else Uploading
  }

  function FinalRow(row: Row, status: Status, now: int): Row {
    row.(status := status, completedAt := if status == Completed then Some(now) else row.completedAt)
  }

  lemma MarkedTwice(rows: Rows, id: ObjectID, status: Status, now: int)
    requires id in rows
    ensures var marked := WithStatus(rows, id, Uploading, now);
            marked == rows[id := FinalRow(rows[id], Uploading, now)]
            && WithStatus(marked, id, status, now) == rows[id := FinalRow(rows[id], status, now)]
  {
  }

  /** What else an upload leaves that comes to its temp file: its row, no other row changed, and the file or not. */
  lemma RowAndTempAfter(rows: Rows, files: Files, id: ObjectID, chunks: seq<Bytes>, clean: bool, digest: Digest,
                        now: int, luck: UploadLuck)
    requires RowsOk(rows) && id in rows && Uploadable(rows[id].status)
    requires luck.queried && luck.marked && luck.dirMade && luck.created
    ensures var after := AfterUploadWith(rows, files, id, chunks, clean, digest, now, luck);
            var broke := Breaks(chunks, rows[id].fileSize + 1, luck.failsAt);
            var fits := luck.found && luck.closed && luck.renamed && clean && !broke
                        && Matches(Flat(chunks), rows[id].fileSize, rows[id].sha256, digest);
            var temp := Temp(if luck.found then StoragePath(id) else "");
            && after.rows == rows[id := FinalRow(rows[id], FinalStatus(fits, luck), now)]
            && (temp in after.files <==> !broke && |Flat(chunks)| > rows[id].fileSize)
  {
    PathsAreApart(id, id, StoragePath(id), "");
    PathsAreApart(id, id, "", "");
    var start := Started(rows, files, id, now, luck);
    MarkedTwice(rows, id, Completed, now);
    MarkedTwice(rows, id, Failed, now);
    ReceivedLeaves(start.rows, start.files, id, start.path.value, rows[id].fileSize, rows[id].sha256, chunks, clean,
                   digest, now, luck);
  }

  /** One that does not changes no file, and its row's status only. */
  lemma NothingReceived(rows: Rows, files: Files, id: ObjectID, chunks: seq<Bytes>, clean: bool, digest: Digest,
                        now: int, luck: UploadLuck)
    requires id in rows && Uploadable(rows[id].status)
    requires !(luck.queried && luck.marked && luck.dirMade && luck.created)
    ensures var after := AfterUploadWith(rows, files, id, chunks, clean, digest, now, luck);
            && !after.ok && after.files == files
            && after.rows == if luck.queried && luck.marked then
                               rows[id := FinalRow(rows[id], FinalStatus(false, luck), now)]
                             else rows
  {
    MarkedTwice(rows, id, Failed, now);
  }

  lemma ReceivedLeaves(rows: Rows, files: Files, id: ObjectID, path: Path, fileSize: int, sha256: string,
                       chunks: seq<Bytes>, clean: bool, digest: Digest, now: int, luck: UploadLuck)
    requires IsID(id) && PathOf(path, id) && id in rows
    ensures var d := Received(rows, files, id, path, fileSize, sha256, chunks, clean, digest, now, luck);
            var broke := Breaks(chunks, fileSize + 1, luck.failsAt);
            var fits := luck.closed && luck.renamed && path != "" && clean && !broke
                        && Matches(Flat(chunks), fileSize, sha256, digest);
            && d.rows == (if fits && luck.completed then WithStatus(rows, id, Completed, now)
                          else if !fits && luck.failureMarked then WithStatus(rows, id, Failed, now) else rows)
            && (Temp(path) in d.files <==> !broke && |Flat(chunks)| > fileSize)
  {
  }
}
