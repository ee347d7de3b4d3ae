/** `ServeFile` of internal/objects/download.go: whole files and single ranges of them. */
module FileServer {
  import opened Wrappers
  import opened Strings
  import opened ByteRange
  import opened ObjectStore

  const STATUS_OK := 200
  const STATUS_PARTIAL := 206
  const STATUS_NOT_SATISFIABLE := 416

  datatype ContentRange = ContentRange(start: int64, end: int64, size: int64)

  /** What is written to the client. A 416 has a fixed text for a body, which is not modelled. */
  datatype Reply = Reply(status: int, contentLength: Option<int64>, contentRange: Option<ContentRange>, body: Bytes)

  datatype ServeError = OpenFailed | InvalidRange(error: RangeError) | MultipleRanges

  /** File sizes are int64 values. */
  predicate Sized(content: Bytes) {
    |content| < INT64_BOUND
  }

  function Size(content: Bytes): int64
    requires Sized(content)
  {
    |content| as int64
  }

  function Slice(content: Bytes, r: ByteRange): Bytes
    requires Sized(content) && InFile(r, Size(content))
  {
    content[r.start as int..r.end as int + 1]
  }

  /** Seek to the start, then copy contentLength bytes. */
  method SendRange(content: Bytes, start: int64, end: int64) returns (reply: Option<Reply>)
    requires Sized(content) && InFile(ByteRange(start, end), Size(content))
    ensures reply == Some(Partial(content, ByteRange(start, end)))
  {
    var rest := content[start as int..];
    var contentLength := end - start + 1;
    SliceOfRest(content, ByteRange(start, end));
    var body := rest[..contentLength as int];
    return Some(Reply(STATUS_PARTIAL, Some(contentLength), Some(ContentRange(start, end, |content| as int64)), body));
  }

  lemma SliceOfRest(content: Bytes, r: ByteRange)
    requires Sized(content) && InFile(r, Size(content))
    ensures content[r.start as int..][..(r.end - r.start + 1) as int] == Slice(content, r)
  {
  }

  /**
   The reply to a request with the given Range header ("" when absent) for a file, None when it cannot be
   opened: the whole file, the one range asked for, or 416.
   */
  method ServeFile(file: Option<Bytes>, rangeHeader: string) returns (reply: Option<Reply>, error: Option<ServeError>)
    requires file.Some? ==> Sized(file.value)
    ensures reply == ReplyTo(file, rangeHeader)
    ensures file.None? ==> reply.None? && error == Some(OpenFailed)
    ensures file.Some? ==> reply.Some? && (error.None? <==> reply.value.status == 200 || reply.value.status == 206)
    ensures file.Some? && rangeHeader == "" ==>
              reply.value == Reply(200, Some(|file.value| as int64), None, file.value)
  {
    if file.None? {
      return None, Some(OpenFailed);
    }
    var content := file.value;
    var fileSize := |content| as int64;
    if rangeHeader == "" {
      return Some(Reply(STATUS_OK, Some(fileSize), None, content)), None;
    }
    var ranges := ParseRange(rangeHeader, fileSize);
    if ranges.Err? {
      return Some(Reply(STATUS_NOT_SATISFIABLE, None, None, [])), Some(InvalidRange(ranges.error));
    }
    if |ranges.value| != 1 {
      return Some(Reply(STATUS_NOT_SATISFIABLE, None, None, [])), Some(MultipleRanges);
    }
    var start, end := ranges.value[0].start, ranges.value[0].end;
    RangeBounds(rangeHeader, fileSize, ranges.value, 0);
    reply := SendRange(content, start, end);
    error := None;
  }

  /** The whole file when no range is asked for; nothing when there is no file. */
  function ReplyTo(file: Option<Bytes>, rangeHeader: string): Option<Reply>
    requires file.Some? ==> Sized(file.value)
  {
    if file.None? then None
    else if rangeHeader == "" then Some(Reply(STATUS_OK, Some(Size(file.value)), None, file.value))
    else Some(Answer(file.value, rangeHeader))
  }

  /** The reply to a non-empty Range header. */
  function Answer(content: Bytes, header: string): (reply: Reply)
    requires Sized(content)
  {
    var ranges := Parse(header, Size(content));
    if ranges.Err? || |ranges.value| != 1 then Reply(STATUS_NOT_SATISFIABLE, None, None, [])
    else
      RangeBounds(header, Size(content), ranges.value, 0);
      var r := ranges.value[0];
      Partial(content, r)
  }

  /** The reply for one range of the file. */
  function Partial(content: Bytes, r: ByteRange): Reply
    requires Sized(content) && InFile(r, Size(content))
  {
    Reply(STATUS_PARTIAL, Some(r.end - r.start + 1), Some(ContentRange(r.start, r.end, Size(content))),
          Slice(content, r))
  }

  /** Length, first and last position and file size are announced, and the body is the announced piece of the file. */
  ghost predicate Announced(content: Bytes, reply: Reply) {
    && 1 <= |reply.body| <= |content| < INT64_BOUND && reply.contentLength == Some(|reply.body| as int64)
    && reply.contentRange.Some?
    && var start, end := reply.contentRange.value.start as int, reply.contentRange.value.end as int;
       && 0 <= start <= end < |content| && reply.contentRange.value.size as int == |content|
       && reply.body == content[start..end + 1]
  }

  lemma PartialIsAnnounced(content: Bytes, r: ByteRange)
    requires Sized(content) && InFile(r, Size(content))
    ensures Announced(content, Partial(content, r))
  {
  }

  /** A partial reply always announces the length it sends, a length between 1 and the file's. */
  lemma LengthIsBodyLength(content: Bytes, header: string)
    requires Sized(content) && Answer(content, header).status == 206
    ensures Announced(content, Answer(content, header))
  {
    var ranges := Parse(header, Size(content)).value;
    RangeBounds(header, Size(content), ranges, 0);
    PartialIsAnnounced(content, ranges[0]);
  }

  /** A header that does not ask for exactly one range of the file is answered 416, without anything of the file. */
  lemma RefusedUnlessOneRange(content: Bytes, header: string)
    requires Sized(content)
    ensures var reply := Answer(content, header);
            if exists r :: Parse(header, Size(content)) == Ok([r]) then reply.status == 206
            else reply == Reply(416, None, None, [])
  {
    var ranges := Parse(header, Size(content));
    if ranges.Ok? && |ranges.value| == 1 {
      assert ranges.value == [ranges.value[0]];
    }
  }

  // ---------------------------------------------------------------- resumable downloads

  /** Positions 0 = cuts[0] < cuts[1] < ... < cuts[k] = n. */
  ghost predicate Cuts(cuts: seq<nat>, n: nat) {
    && |cuts| >= 1 && cuts[0] == 0 && cuts[|cuts| - 1] == n
    && forall i :: 0 <= i < |cuts| - 1 ==> cuts[i] < cuts[i + 1]
  }

  lemma {:induction false} CutsBelow(cuts: seq<nat>, n: nat, i: nat)
    requires Cuts(cuts, n) && i < |cuts|
    ensures cuts[i] <= n && (i < |cuts| - 1 ==> cuts[i] < n)
    decreases |cuts| - i
  {
    if i < |cuts| - 1 {
      CutsBelow(cuts, n, i + 1);
    }
  }

  /** The header a client sends for the bytes from `from` up to but not including `to`. */
  function HeaderFor(from: nat, to: nat): string
    requires from < to < INT64_BOUND
  {
    UNIT + Explicit(ByteRange(from as int64, to as int64 - 1))
  }

  lemma PieceIsServed(content: Bytes, from: nat, to: nat)
    requires Sized(content) && from < to <= |content|
    ensures var reply := Answer(content, HeaderFor(from, to));
            reply.status == 206 && reply.body == content[from..to]
  {
    SingleExplicit(ByteRange(from as int64, to as int64 - 1), Size(content));
  }

  /** The bodies of the first `k` pieces, one after another. */
  ghost function Bodies(content: Bytes, cuts: seq<nat>, k: nat): Bytes
    requires Sized(content) && Cuts(cuts, |content|) && k < |cuts|
  {
    if k == 0 then []
    else
      CutsBelow(cuts, |content|, k);
      Bodies(content, cuts, k - 1) + Answer(content, HeaderFor(cuts[k - 1], cuts[k])).body
  }

  lemma LastBody(content: Bytes, cuts: seq<nat>, k: nat)
    requires Sized(content) && Cuts(cuts, |content|) && 0 < k < |cuts|
    ensures cuts[k - 1] < cuts[k] <= |content|
    ensures Bodies(content, cuts, k) == Bodies(content, cuts, k - 1) + content[cuts[k - 1]..cuts[k]]
  {
    CutsBelow(cuts, |content|, k);
    PieceIsServed(content, cuts[k - 1], cuts[k]);
  }

  lemma {:induction false} BodiesArePrefix(content: Bytes, cuts: seq<nat>, k: nat)
    requires Sized(content) && Cuts(cuts, |content|) && k < |cuts|
    ensures cuts[k] <= |content| && Bodies(content, cuts, k) == content[..cuts[k]]
  {
    if k > 0 {
      BodiesArePrefix(content, cuts, k - 1);
      LastBody(content, cuts, k);
    }
  }

  /**
   However a file is cut into consecutive ranges, the pieces served put together are what is served without a header,
   and that is the whole file.
   */
  lemma ResumedDownloadIsWhole(content: Bytes, cuts: seq<nat>)
    requires Sized(content) && Cuts(cuts, |content|)
    ensures Bodies(content, cuts, |cuts| - 1) == ReplyTo(Some(content), "").value.body == content
  {
    var last := |cuts| - 1;
    calc {
      Bodies(content, cuts, last);
    == { BodiesArePrefix(content, cuts, last); }
      content[..cuts[last]];
    ==
      content;
    }
  }
}
