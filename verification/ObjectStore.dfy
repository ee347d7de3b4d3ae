/**
 Rows of uploaded_objects and the files under the objects directory (internal/objects/storage.go).
 Paths are relative to that directory, and a digest function stands for hex SHA-256.
 */
module ObjectStore {
  import opened Wrappers

  type Byte = b: int | 0 <= b < 256
  type Bytes = seq<Byte>
  type Path = string
  type ObjectID = string
  type Digest = Bytes -> string

  datatype Status = Pending | Uploading | Completed | Failed

  datatype Row = Row(fileSize: int, sha256: string, status: Status, storagePath: Path,
                     completedAt: Option<int>, expiresAt: Option<int>)

  type Rows = map<ObjectID, Row>
  type Files = map<Path, Bytes>

  // ---------------------------------------------------------------- paths

  /** The length of a UUID's text. */
  const ID_LENGTH: nat := 36

  predicate IsID(id: string) {
    |id| == ID_LENGTH
  }

  /** getStoragePath: the first two characters as a directory. */
  function StoragePath(id: ObjectID): Path {
    if |id| < 2 then id else id[..2] + "/" + id
  }

  function Temp(path: Path): Path {
    path + ".tmp"
  }

  /** The path of an object whose row is not found is "". */
  predicate PathOf(path: Path, id: ObjectID) {
    path == "" || path == StoragePath(id)
  }

  /** The path is the id below a directory named by its first two characters. */
  lemma PathIsReadable(id: ObjectID)
    ensures |id| < 2 ==> StoragePath(id) == id
    ensures |id| >= 2 ==> StoragePath(id)[..2] == id[..2] && StoragePath(id)[2] == '/' && StoragePath(id)[3..] == id
    ensures Temp(StoragePath(id)) == StoragePath(id) + ".tmp"
  {
  }

  /** Two objects never share a file, and no temp file is any object's file. */
  lemma PathsAreApart(a: ObjectID, b: ObjectID, p: Path, q: Path)
    requires IsID(a) && IsID(b) && PathOf(p, a) && PathOf(q, b)
    ensures StoragePath(a) == StoragePath(b) <==> a == b
    ensures Temp(p) != StoragePath(b)
    ensures a != b && p != "" ==> Temp(p) != Temp(q) && p != q
  {
    if StoragePath(a) == StoragePath(b) {
      assert StoragePath(a)[3..] == a && StoragePath(b)[3..] == b;
    }
    if p != "" && Temp(p) == Temp(q) {
      assert Temp(p)[..|p|] == p && Temp(q)[..|q|] == q;
    }
    assert |Temp(p)| == |p| + 4;
  }

  // ---------------------------------------------------------------- operations

  predicate Uploadable(status: Status) {
    status == Pending || status == Uploading
  }

  /** The gate of an upload: the announced size, and the announced digest if there is one. */
  predicate Matches(content: Bytes, fileSize: int, sha256: string, digest: Digest) {
    |content| == fileSize && (sha256 != "" ==> digest(content) == sha256)
  }

  function NewRow(id: ObjectID, fileSize: int, sha256: string): Row {
    Row(fileSize, sha256, Pending, StoragePath(id), None, None)
  }

  /** UpdateObjectStatus; a missing row is an error and changes nothing. */
  function WithStatus(rows: Rows, id: ObjectID, status: Status, now: int): Rows {
    if id !in rows then rows
    else if status == Completed then rows[id := rows[id].(status := status, completedAt := Some(now))]
    else rows[id := rows[id].(status := status)]
  }

  function LookupPath(rows: Rows, id: ObjectID): Path {
    if id in rows then rows[id].storagePath else ""
  }

  /** expires_at IS NOT NULL AND expires_at < now */
  predicate RowExpired(row: Row, now: int) {
    row.expiresAt.Some? && row.expiresAt.value < now
  }

  function ExpiredPaths(rows: Rows, now: int): set<Path> {
    set id | id in rows && RowExpired(rows[id], now) :: rows[id].storagePath
  }

  /** CleanupExpiredObjects with a database and disk that do not fail. */
  function RowsAfterCleanup(rows: Rows, now: int): Rows {
    map id | id in rows && !RowExpired(rows[id], now) :: rows[id]
  }

  function FilesAfterCleanup(rows: Rows, files: Files, now: int): Files {
    map p | p in files && p !in ExpiredPaths(rows, now) :: files[p]
  }

  /** Every row is under a UUID and points to the path made from it. */
  ghost predicate RowsOk(rows: Rows) {
    forall id :: id in rows ==> IsID(id) && rows[id].storagePath == StoragePath(id)
  }
}
