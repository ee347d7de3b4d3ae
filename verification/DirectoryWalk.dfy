/** The recursive emptiness check of internal/mcp/tools.go. */
module DirectoryWalk {
  import opened Wrappers

  datatype WalkError = CallFailed | ListUnsuccessful | BadPayload

  /** What a device replies when a directory is listed; a sub-directory carries the reply its own listing gets. */
  datatype Reply = Failed(error: WalkError) | Listed(entries: seq<Entry>)

  datatype Entry = File | Directory(reply: Reply)

  // ---------------------------------------------------------------- what the check is about

  predicate HasFile(r: Reply) {
    r.Listed? && exists i :: 0 <= i < |r.entries| && EntryHasFile(r.entries[i])
  }

  predicate EntryHasFile(entry: Entry) {
    entry.File? || HasFile(entry.reply)
  }

  /** Every directory of the tree could be listed. */
  predicate FullyListed(r: Reply) {
    r.Listed? && forall i :: 0 <= i < |r.entries| ==> EntryListed(r.entries[i])
  }

  predicate EntryListed(entry: Entry) {
    entry.File? || FullyListed(entry.reply)
  }

  /** Listing by listing and entry by entry: a file anywhere below counts, and so does a failed listing. */
  lemma TreesAreReadWhole(r: Reply, a: seq<Entry>, b: seq<Entry>, error: WalkError)
    ensures HasFile(Listed([File])) && FullyListed(Listed([File]))
    ensures !HasFile(Listed([])) && FullyListed(Listed([]))
    ensures !HasFile(Failed(error)) && !FullyListed(Failed(error))
    ensures HasFile(Listed([Directory(r)])) <==> HasFile(r)
    ensures FullyListed(Listed([Directory(r)])) <==> FullyListed(r)
    ensures HasFile(Listed(a + b)) <==> HasFile(Listed(a)) || HasFile(Listed(b))
    ensures FullyListed(Listed(a + b)) <==> FullyListed(Listed(a)) && FullyListed(Listed(b))
  {
    assert EntryHasFile([File][0]);
    assert HasFile(r) ==> EntryHasFile([Directory(r)][0]);
    assert !FullyListed(r) ==> !EntryListed([Directory(r)][0]);
    assert forall i :: 0 <= i < |a| ==> (a + b)[i] == a[i];
    assert forall i :: 0 <= i < |b| ==> (a + b)[|a| + i] == b[i];
    assert forall i :: |a| <= i < |a + b| ==> (a + b)[i] == b[i - |a|];
  }

  // ---------------------------------------------------------------- the order of the walk

  datatype Event = FoundFile | Failure(error: WalkError)

  /** What a walk without early exits would run into, in its order. */
  function Events(r: Reply): seq<Event> {
    match r
    case Failed(error) => [Failure(error)]
    case Listed(entries) => AllEvents(entries)
  }

  function EntryEvents(entry: Entry): seq<Event> {
    if entry.File? then [FoundFile] else Events(entry.reply)
  }

  function AllEvents(entries: seq<Entry>): seq<Event> {
    if entries == [] then [] else EntryEvents(entries[0]) + AllEvents(entries[1..])
  }

  /** Directories of the tree, as far as its replies reach. */
  function Directories(r: Reply): nat {
    1 + if r.Listed? then AllDirectories(r.entries) else 0
  }

  function EntryDirectories(entry: Entry): nat {
    if entry.File? then 0 else Directories(entry.reply)
  }

  function AllDirectories(entries: seq<Entry>): nat {
    if entries == [] then 0 else EntryDirectories(entries[0]) + AllDirectories(entries[1..])
  }

  lemma {:induction false} Appended(before: seq<Entry>, entry: Entry)
    ensures AllEvents(before + [entry]) == AllEvents(before) + EntryEvents(entry)
    ensures AllDirectories(before + [entry]) == AllDirectories(before) + EntryDirectories(entry)
  {
    if before == [] {
      assert [entry][1..] == [];
      assert before + [entry] == [entry];
    } else {
      assert (before + [entry])[1..] == before[1..] + [entry];
      Appended(before[1..], entry);
    }
  }

  lemma {:induction false} EventsGrow(entries: seq<Entry>, i: nat)
    requires i <= |entries|
    ensures AllEvents(entries[..i]) <= AllEvents(entries)
    ensures AllDirectories(entries[..i]) <= AllDirectories(entries)
    decreases |entries| - i
  {
    if i == |entries| {
      assert entries[..i] == entries;
    } else {
      assert entries[..i + 1] == entries[..i] + [entries[i]];
      Appended(entries[..i], entries[i]);
      EventsGrow(entries, i + 1);
    }
  }

  // ---------------------------------------------------------------- walk order and tree agree

  lemma {:induction false} EventsMeanTree(r: Reply)
    ensures FoundFile in Events(r) <==> HasFile(r)
    ensures (exists e :: Failure(e) in Events(r)) <==> !FullyListed(r)
  {
    if r.Listed? {
      AllEventsMeanTree(r.entries);
    } else {
      assert Failure(r.error) in Events(r);
    }
  }

  lemma {:induction false} EntryEventsMeanTree(entry: Entry)
    ensures FoundFile in EntryEvents(entry) <==> EntryHasFile(entry)
    ensures (exists e :: Failure(e) in EntryEvents(entry)) <==> !EntryListed(entry)
  {
    if entry.Directory? {
      EventsMeanTree(entry.reply);
    }
  }

  lemma {:induction false} AllEventsMeanTree(entries: seq<Entry>)
    ensures FoundFile in AllEvents(entries) <==> exists i :: 0 <= i < |entries| && EntryHasFile(entries[i])
    ensures (exists e :: Failure(e) in AllEvents(entries))
            <==> exists i :: 0 <= i < |entries| && !EntryListed(entries[i])
  {
    if entries != [] {
      var rest := entries[1..];
      EntryEventsMeanTree(entries[0]);
      AllEventsMeanTree(rest);
      assert forall i :: 0 <= i < |rest| ==> rest[i] == entries[i + 1];
      assert forall i :: 0 < i < |entries| ==> entries[i] == rest[i - 1];
      assert AllEvents(entries) == EntryEvents(entries[0]) + AllEvents(rest);
      assert (exists i :: 0 <= i < |entries| && EntryHasFile(entries[i]))
        <==> (EntryHasFile(entries[0]) || exists i :: 0 <= i < |rest| && EntryHasFile(rest[i]));
      assert (exists i :: 0 <= i < |entries| && !EntryListed(entries[i]))
        <==> (!EntryListed(entries[0]) || exists i :: 0 <= i < |rest| && !EntryListed(rest[i]));
    }
  }

  // ---------------------------------------------------------------- the check

  /** The first event of the walk decides. */
  function Verdict(events: seq<Event>): (bool, Option<WalkError>) {
    if events == [] then (true, None)
    else if events[0].FoundFile? then (false, None)
    else (false, Some(events[0].error))
  }

  /**
   For every finite tree: "empty" exactly when every directory was listed and none holds a file; "not empty"
   without an error only when a file exists; an error only when some listing failed.
   */
  lemma VerdictIsAboutTree(r: Reply)
    ensures var (empty, error) := Verdict(Events(r));
            && (empty <==> FullyListed(r) && !HasFile(r))
            && (!empty && error.None? ==> HasFile(r))
            && (error.Some? ==> !empty && !FullyListed(r) && Failure(error.value) in Events(r))
            && (FullyListed(r) ==> error.None?)
  {
    EventsMeanTree(r);
    if Events(r) != [] {
      assert Events(r)[0] in Events(r);
    }
  }

  /**
   The answer, the error, and the number of list calls made. "Empty" is answered only after every
   directory of the tree has been listed.
   */
  method IsDirectoryEmpty(r: Reply) returns (empty: bool, error: Option<WalkError>, calls: nat)
    ensures (empty, error) == Verdict(Events(r))
    ensures 1 <= calls <= Directories(r)
    ensures empty ==> calls == Directories(r)
    decreases r
  {
    calls := 1;
    if r.Failed? {
      return false, Some(r.error), calls;
    }
    var entries := r.entries;
    if |entries| == 0 {
      return true, None, calls;
    }
    for i := 0 to |entries|
      invariant AllEvents(entries[..i]) == []
      invariant calls == 1 + AllDirectories(entries[..i])
    {
      assert entries[..i + 1] == entries[..i] + [entries[i]];
      Appended(entries[..i], entries[i]);
      EventsGrow(entries, i + 1);
      if entries[i].File? {
        return false, None, calls;
      }
      var subEmpty, subError, subCalls := IsDirectoryEmpty(entries[i].reply);
      calls := calls + subCalls;
      if subError.Some? {
        return false, subError, calls;
      }
      if !subEmpty {
        return false, None, calls;
      }
    }
    assert entries[..|entries|] == entries;
    return true, None, calls;
  }
}
