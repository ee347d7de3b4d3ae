/** Requests that overlap each other or a cleanup: when they keep the promise, and runs that lose an object. */
module RetentionLosses {
  import opened Wrappers
  import opened ObjectStore
  import opened ObjectStorage
  import opened RetentionProtocol
  import opened Retention

  // ---------------------------------------------------------------- whole handlers and whole cleanups

  /** A request's first two statements. */
  lemma IssueAfterRead(s: State, r: nat, id: ObjectID, token: Token)
    requires r !in s.checked && Unused(s, token) && Complete(s.rows, id)
    ensures var t := Apply(s, ReadStatus(r, id));
            Enabled(t, IssueToken(r, token, s.now))
            && Apply(t, IssueToken(r, token, s.now))
               == WithToken(s, id, token, s.now).(owed := s.owed[token := Grant(id, s.now)])
  {
    assert Without(s.checked[r := id], r) == s.checked;
  }

  lemma WriteAfterIssue(s: State, id: ObjectID, token: Token, written: bool)
    requires Unused(s, token)
    ensures Apply(WithToken(s, id, token, s.now).(owed := s.owed[token := Grant(id, s.now)]),
                  WriteExpiration(token, written))
            == Generated(s, id, token, written)
  {
    assert Without(s.owed[token := Grant(id, s.now)], token) == s.owed;
  }

  /** A whole token request is the run of its three statements. */
  lemma GenerateIsRun(s: State, r: nat, id: ObjectID, token: Token, written: bool)
    requires r !in s.checked && Unused(s, token) && Complete(s.rows, id)
    ensures var steps := [ReadStatus(r, id)]
                         + ([IssueToken(r, token, s.now)] + ([WriteExpiration(token, written)] + []));
            CanRun(s, steps) && Run(s, steps) == Apply(s, GenerateDownloadToken(id, token, written))
  {
    IssueAfterRead(s, r, id, token);
    WriteAfterIssue(s, id, token, written);
    var s1 := Apply(s, ReadStatus(r, id));
    var s2 := Apply(s1, IssueToken(r, token, s.now));
    RunFirst(s2, WriteExpiration(token, written), []);
    RunFirst(s1, IssueToken(r, token, s.now), [WriteExpiration(token, written)] + []);
    RunFirst(s, ReadStatus(r, id), [IssueToken(r, token, s.now)] + ([WriteExpiration(token, written)] + []));
  }

  /** The handling of one found object. */
  function OneCollected(g: nat, id: ObjectID, luck: Luck): seq<Step> {
    if id in luck.scanned then
      [CollectFile(g, id, id in luck.removed)] + ([CollectRow(g, id in luck.deleted)] + [])
    else [SkipObject(g, id)] + []
  }

  lemma OneIsCollected(s: State, g: nat, id: ObjectID, luck: Luck)
    requires RowsOk(s.rows) && id in s.rows && NextFor(s, g, id)
    ensures CanRun(s, OneCollected(g, id, luck))
    ensures var t := Run(s, OneCollected(g, id, luck));
            && t.rows == RowsNext(s.rows, luck, id) && t.files == FilesNext(s.rows, s.files, luck, id)
            && t.sweeps == s.sweeps[g := Sweep(s.sweeps[g].found - {id}, None)]
  {
    if id in luck.scanned {
      var t := Apply(s, CollectFile(g, id, id in luck.removed));
      RunFirst(t, CollectRow(g, id in luck.deleted), []);
      RunFirst(s, CollectFile(g, id, id in luck.removed), [CollectRow(g, id in luck.deleted)] + []);
    } else {
      RunFirst(s, SkipObject(g, id), []);
    }
  }

  /** A cleanup that nothing has disturbed, with `todo` of `ids` still before it. */
  ghost predicate Undisturbed(rows0: Rows, files0: Files, ids: set<ObjectID>, todo: set<ObjectID>, s: State, g: nat,
                              luck: Luck, count: int) {
    && RowsOk(s.rows) && todo <= ids <= rows0.Keys && g in s.sweeps && s.sweeps[g] == Sweep(todo, None)
    && Cleaned(rows0, files0, luck, ids - todo, s.rows, s.files, count)
  }

  lemma OneOfCleanup(rows0: Rows, files0: Files, ids: set<ObjectID>, todo: set<ObjectID>, s: State, g: nat,
                     luck: Luck, count: int, id: ObjectID) returns (next: int)
    requires Undisturbed(rows0, files0, ids, todo, s, g, luck, count) && id in todo
    ensures CanRun(s, OneCollected(g, id, luck))
    ensures Undisturbed(rows0, files0, ids, todo - {id}, Run(s, OneCollected(g, id, luck)), g, luck, next)
  {
    CleanOne(rows0, files0, luck, ids, todo, s.rows, s.files, count, id);
    OneIsCollected(s, g, id, luck);
    next := count + |s.rows| - |RowsNext(s.rows, luck, id)|;
  }

  lemma {:induction false} RestOfCleanupIsRun(rows0: Rows, files0: Files, ids: set<ObjectID>, todo: set<ObjectID>,
                                              s: State, g: nat, luck: Luck, count: int)
    returns (steps: seq<Step>, total: int)
    requires Undisturbed(rows0, files0, ids, todo, s, g, luck, count)
    ensures CanRun(s, steps) && Undisturbed(rows0, files0, ids, {}, Run(s, steps), g, luck, total)
    decreases todo
  {
    steps, total := [], count;
    if todo != {} {
      var id :| id in todo;
      var next := OneOfCleanup(rows0, files0, ids, todo, s, g, luck, count, id);
      var t := Run(s, OneCollected(g, id, luck));
      steps, total := RestOfCleanupIsRun(rows0, files0, ids, todo - {id}, t, g, luck, next);
      RunsCompose(s, OneCollected(g, id, luck), steps);
      steps := OneCollected(g, id, luck) + steps;
    }
  }

  /** The cleanup of the storage class is one run of these steps, whichever of its operations fail. */
  lemma CleanupIsRun(s: State, g: nat, luck: Luck) returns (steps: seq<Step>, total: int)
    requires RowsOk(s.rows) && g !in s.sweeps
    ensures CanRun(s, steps)
    ensures Cleaned(s.rows, s.files, luck, ExpiredIDs(s.rows, s.now), Run(s, steps).rows, Run(s, steps).files, total)
  {
    var ids := ExpiredIDs(s.rows, s.now);
    var t := Apply(s, QueryExpired(g, s.now));
    CleanedNone(s.rows, s.files, luck, ids);
    steps, total := RestOfCleanupIsRun(s.rows, s.files, ids, ids, t, g, luck, 0);
    CleanedAll(s.rows, s.files, luck, ids, Run(t, steps).rows, Run(t, steps).files, total);
    RunFirst(s, QueryExpired(g, s.now), steps);
    steps := [QueryExpired(g, s.now)] + steps;
  }

  /** The whole handler of a link, for a new object, is in order by itself. */
  lemma LinkIsInOrder(s: State, id: ObjectID, fileSize: int, bytes: Bytes, clean: bool, digest: Digest, token: Token)
    requires Books(s) && IsID(id) && id !in s.issued && Unused(s, token)
    ensures var s1 := Apply(s, InitUpload(id, fileSize, ""));
            var s2 := Apply(s1, Upload(id, bytes, clean, digest));
            && Enabled(s2, IssueLink(id, token, s2.now)) && InOrder(s2, IssueLink(id, token, s2.now))
            && Enabled(s2, IssueLink("", token, s2.now)) && InOrder(s2, IssueLink("", token, s2.now))
  {
    var s1 := Apply(s, InitUpload(id, fileSize, ""));
    var s2 := Apply(s1, Upload(id, bytes, clean, digest));
    assert !IsID("");
    assert s2.sweeps == s.sweeps && s2.collected == s.collected && s2.rows[id].expiresAt.None?;
  }

  // ---------------------------------------------------------------- two requests that overlap

  /** Time passing and statuses being read break nothing by themselves. */
  lemma TickIsFine(s: State, d: nat)
    requires Books(s) && Kept(s)
    ensures Books(Apply(s, Tick(d))) && Kept(Apply(s, Tick(d)))
  {
    StepKeepsBooks(s, Tick(d));
    StepKeepsIffInOrder(s, Tick(d));
  }

  /** A request reads its object's status and issues the token. */
  function Issued(id: ObjectID, token: Token, at: int): seq<Step> {
    [ReadStatus(0, id)] + ([IssueToken(0, token, at)] + [])
  }

  /** A state in which a token may be issued for a completed object. */
  ghost predicate Ready(s: State, id: ObjectID) {
    Books(s) && Kept(s) && Complete(s.rows, id) && MayGrant(s, id, s.now) && 0 !in s.checked
  }

  function AfterIssue(s: State, id: ObjectID, token: Token): State {
    s.(tokens := s.tokens[token := Grant(id, s.now)], owed := s.owed[token := Grant(id, s.now)])
  }

  lemma IssuedIsReady(s: State, id: ObjectID, token: Token)
    requires Ready(s, id) && Unused(s, token)
    ensures Ready(AfterIssue(s, id, token), id)
  {
    var s1 := Apply(s, ReadStatus(0, id));
    IssueAfterRead(s, 0, id, token);
    StepKeepsBooks(s, ReadStatus(0, id));
    QuietStepKeeps(s, ReadStatus(0, id));
    StepKeepsBooks(s1, IssueToken(0, token, s.now));
    IssueKeepsIff(s1, 0, token, s.now);
    assert AfterIssue(s, id, token) == Apply(s1, IssueToken(0, token, s.now));
  }

  lemma IssuedIsRun(s: State, id: ObjectID, token: Token)
    requires Ready(s, id) && Unused(s, token)
    ensures CanRun(s, Issued(id, token, s.now)) && Run(s, Issued(id, token, s.now)) == AfterIssue(s, id, token)
  {
    IssueAfterRead(s, 0, id, token);
    RunFirst(Apply(s, ReadStatus(0, id)), IssueToken(0, token, s.now), []);
    RunFirst(s, ReadStatus(0, id), [IssueToken(0, token, s.now)] + []);
  }

  /** Two requests for one object issue their tokens, `a` first and `b` after `d`. */
  function TwoIssued(id: ObjectID, a: Token, b: Token, at: int, d: nat): seq<Step> {
    Issued(id, a, at) + ([Tick(d)] + Issued(id, b, at + d))
  }

  /** Both have their tokens and have yet to write the expiration; tokens handed out expire no later than either. */
  ghost predicate BothOwed(s: State, id: ObjectID, a: Token, b: Token, d: nat) {
    && Books(s) && Kept(s) && Complete(s.rows, id) && a != b
    && a in s.owed && b in s.owed && a in s.tokens && b in s.tokens && Accepted(s, b)
    && ObjectOf(s.owed[a]) == ObjectOf(s.owed[b]) == id
    && s.owed[b].expiresAt == s.owed[a].expiresAt + d
    && forall k :: HandedOut(s, k) ==> s.tokens[k].expiresAt <= s.owed[a].expiresAt
  }

  lemma TwoAreOwed(s: State, id: ObjectID, a: Token, b: Token, d: nat)
    requires Ready(s, id) && Unused(s, a) && Unused(s, b) && a != b
    ensures var s2 := Apply(AfterIssue(s, id, a), Tick(d));
            Ready(s2, id) && Unused(s2, b) && BothOwed(AfterIssue(s2, id, b), id, a, b, d)
  {
    var s1 := AfterIssue(s, id, a);
    IssuedIsReady(s, id, a);
    TickIsFine(s1, d);
    var s2 := Apply(s1, Tick(d));
    IssuedIsReady(s2, id, b);
    var s3 := AfterIssue(s2, id, b);
    forall k | HandedOut(s3, k) ensures s3.tokens[k].expiresAt <= s3.owed[a].expiresAt {
      assert k in s.tokens;
    }
  }

  lemma StepBetween(s: State, a: seq<Step>, step: Step, b: seq<Step>)
    requires CanRun(s, a) && Enabled(Run(s, a), step) && CanRun(Apply(Run(s, a), step), b)
    ensures CanRun(s, a + ([step] + b)) && Run(s, a + ([step] + b)) == Run(Apply(Run(s, a), step), b)
  {
    RunFirst(Run(s, a), step, b);
    RunsCompose(s, a, [step] + b);
  }

  /** The states the two requests go through. */
  function AfterBoth(s: State, id: ObjectID, a: Token, b: Token, d: nat): State {
    AfterIssue(Apply(AfterIssue(s, id, a), Tick(d)), id, b)
  }

  lemma TwoIssuedIsRun(s: State, id: ObjectID, a: Token, b: Token, d: nat)
    requires Ready(s, id) && Unused(s, a)
    requires var s2 := Apply(AfterIssue(s, id, a), Tick(d)); Ready(s2, id) && Unused(s2, b)
    ensures CanRun(s, TwoIssued(id, a, b, s.now, d))
    ensures Run(s, TwoIssued(id, a, b, s.now, d)) == AfterBoth(s, id, a, b, d)
  {
    IssuedIsRun(s, id, a);
    var s1 := AfterIssue(s, id, a);
    var s2 := Apply(s1, Tick(d));
    IssuedIsRun(s2, id, b);
    assert s2.now == s.now + d;
    var second := Issued(id, b, s.now + d);
    assert CanRun(s2, second) && Run(s2, second) == AfterBoth(s, id, a, b, d);
    StepBetween(s, Issued(id, a, s.now), Tick(d), second);
  }

  lemma TwoAreIssued(s: State, id: ObjectID, a: Token, b: Token, d: nat)
    requires Ready(s, id) && Unused(s, a) && Unused(s, b) && a != b
    ensures CanRun(s, TwoIssued(id, a, b, s.now, d)) && BothOwed(Run(s, TwoIssued(id, a, b, s.now, d)), id, a, b, d)
  {
    TwoAreOwed(s, id, a, b, d);
    TwoIssuedIsRun(s, id, a, b, d);
  }

  /** The two writes, of `first` and then of `second`. */
  function TwoWrites(first: Token, second: Token): seq<Step> {
    [WriteExpiration(first, true)] + ([WriteExpiration(second, true)] + [])
  }

  lemma TwoWritesRun(s: State, first: Token, second: Token)
    requires first in s.owed && second in s.owed && first != second
    ensures CanRun(s, TwoWrites(first, second))
    ensures Run(s, TwoWrites(first, second))
            == Apply(Apply(s, WriteExpiration(first, true)), WriteExpiration(second, true))
  {
    RunFirst(Apply(s, WriteExpiration(first, true)), WriteExpiration(second, true), []);
    RunFirst(s, WriteExpiration(first, true), [WriteExpiration(second, true)] + []);
  }

  lemma LaterLastKeeps(s: State, id: ObjectID, a: Token, b: Token, d: nat)
    requires BothOwed(s, id, a, b, d)
    ensures CanRun(s, TwoWrites(a, b)) && Kept(Run(s, TwoWrites(a, b)))
  {
    TwoWritesRun(s, a, b);
    var t := Apply(s, WriteExpiration(a, true));
    StepKeepsBooks(s, WriteExpiration(a, true));
    WriteKeepsIff(s, a);
    WriteKeepsIff(t, b);
    forall k | HandedOut(t, k) ensures t.tokens[k].expiresAt <= t.owed[b].expiresAt {
      assert k == a || HandedOut(s, k);
    }
  }

  lemma LaterFirstKeepsIff(s: State, id: ObjectID, a: Token, b: Token, d: nat)
    requires BothOwed(s, id, a, b, d)
    ensures CanRun(s, TwoWrites(b, a)) && (Kept(Run(s, TwoWrites(b, a))) <==> d == 0)
  {
    TwoWritesRun(s, b, a);
    var t := Apply(s, WriteExpiration(b, true));
    StepKeepsBooks(s, WriteExpiration(b, true));
    WriteKeepsIff(s, b);
    WriteKeepsIff(t, a);
    assert HandedOut(t, b) && t.tokens[b] == s.owed[b];
    forall k | HandedOut(t, k) && k != b ensures t.tokens[k].expiresAt <= t.owed[a].expiresAt {
      assert HandedOut(s, k);
    }
  }

  /**
   Of two overlapping requests, in any state in which tokens may be issued for the object: retention is kept if and
   only if the request whose token was issued later writes its expiration last, or both were issued at one instant.
   */
  lemma OverlapKeepsIff(s: State, id: ObjectID, a: Token, b: Token, d: nat, laterLast: bool)
    requires Ready(s, id) && Unused(s, a) && Unused(s, b) && a != b
    ensures var steps := TwoIssued(id, a, b, s.now, d) + (if laterLast then TwoWrites(a, b) else TwoWrites(b, a));
            CanRun(s, steps) && Books(Run(s, steps)) && (Kept(Run(s, steps)) <==> laterLast || d == 0)
  {
    TwoAreIssued(s, id, a, b, d);
    var t := Run(s, TwoIssued(id, a, b, s.now, d));
    LaterLastKeeps(t, id, a, b, d);
    LaterFirstKeepsIff(t, id, a, b, d);
    var writes := if laterLast then TwoWrites(a, b) else TwoWrites(b, a);
    RunsCompose(s, TwoIssued(id, a, b, s.now, d), writes);
    RunKeepsBooks(s, TwoIssued(id, a, b, s.now, d) + writes);
  }

  // ---------------------------------------------------------------- a token, and after `d` something else

  /** One whole request, and time passing. */
  function FirstToken(id: ObjectID, a: Token, d: nat): seq<Step> {
    [GenerateDownloadToken(id, a, true)] + ([Tick(d)] + [])
  }

  /** The object then expires with its first token. */
  ghost predicate Given(s: State, id: ObjectID, d: nat) {
    && Ready(s, id) && s.owed == map[] && s.rows[id].expiresAt == Some(s.now - d + TOKEN_LIFETIME)
    && id !in s.collected && Spared(s, id)
  }

  lemma GeneratedIsKept(s: State, id: ObjectID, a: Token)
    requires Ready(s, id) && Unused(s, a)
    ensures Books(Generated(s, id, a, true)) && Kept(Generated(s, id, a, true))
  {
    GenerateKeepsBooks(s, id, a, true);
    GenerateKeepsIff(s, id, a, true);
  }

  lemma WhatIsGenerated(s: State, id: ObjectID, a: Token)
    requires Complete(s.rows, id) && Unused(s, a) && id !in s.collected
    ensures Apply(s, GenerateDownloadToken(id, a, true)) == Generated(s, id, a, true)
    ensures Generated(s, id, a, true)
            == s.(tokens := s.tokens[a := Grant(id, s.now)], rows := Expire(s.rows, id, s.now + TOKEN_LIFETIME))
  {
  }

  lemma GivenAfter(s: State, t: State, id: ObjectID)
    requires Books(t) && Kept(t) && t == s.(tokens := t.tokens, rows := Expire(s.rows, id, s.now + TOKEN_LIFETIME))
    requires Complete(s.rows, id) && id !in s.collected && Spared(s, id) && 0 !in s.checked && s.owed == map[]
    ensures Given(t, id, 0)
  {
  }

  lemma GeneratedIsGiven(s: State, id: ObjectID, a: Token)
    requires Ready(s, id) && s.owed == map[] && Unused(s, a)
    ensures Given(Apply(s, GenerateDownloadToken(id, a, true)), id, 0)
  {
    assert id !in s.collected && Spared(s, id);
    WhatIsGenerated(s, id, a);
    GeneratedIsKept(s, id, a);
    GivenAfter(s, Generated(s, id, a, true), id);
  }

  lemma FirstIsGiven(s: State, id: ObjectID, a: Token, d: nat)
    requires Ready(s, id) && s.owed == map[] && Unused(s, a)
    ensures CanRun(s, FirstToken(id, a, d)) && Given(Run(s, FirstToken(id, a, d)), id, d)
    ensures var t := Run(s, FirstToken(id, a, d));
            t.tokens.Keys == s.tokens.Keys + {a} && t.sweeps == s.sweeps && t.now == s.now + d
  {
    var s1 := Apply(s, GenerateDownloadToken(id, a, true));
    GeneratedIsGiven(s, id, a);
    TickIsFine(s1, d);
    RunFirst(s1, Tick(d), []);
    RunFirst(s, GenerateDownloadToken(id, a, true), [Tick(d)] + []);
  }

  /** A second request whose expiration is not written, which is only logged: kept if and only if it is immediate. */
  lemma UnwrittenSecondKeepsIff(s: State, id: ObjectID, b: Token, d: nat)
    requires Given(s, id, d) && Unused(s, b)
    ensures var t := Apply(s, GenerateDownloadToken(id, b, false)); Books(t) && (Kept(t) <==> d == 0)
  {
    StepKeepsBooks(s, GenerateDownloadToken(id, b, false));
    StepKeepsIffInOrder(s, GenerateDownloadToken(id, b, false));
  }

  /** So with a link's token, for which no expiration is written. */
  lemma LinkSecondKeepsIff(s: State, id: ObjectID, b: Token, d: nat)
    requires Given(s, id, d) && Unused(s, b)
    ensures var t := Apply(s, IssueLink(id, b, s.now)); Books(t) && (Kept(t) <==> d == 0)
  {
    StepKeepsBooks(s, IssueLink(id, b, s.now));
    StepKeepsIffInOrder(s, IssueLink(id, b, s.now));
  }

  /** A cleanup's query between the two writes of a second request: kept if and only if the object has not expired. */
  lemma QueryHalfWayKeepsIff(s: State, id: ObjectID, b: Token, d: nat, g: nat)
    requires Given(s, id, d) && Unused(s, b) && g !in s.sweeps
    ensures var steps := Issued(id, b, s.now) + ([QueryExpired(g, s.now)] + []);
            CanRun(s, steps) && Books(Run(s, steps)) && (Kept(Run(s, steps)) <==> d <= TOKEN_LIFETIME)
  {
    IssuedIsRun(s, id, b);
    IssuedIsReady(s, id, b);
    var t := AfterIssue(s, id, b);
    assert t.owed == map[b := Grant(id, s.now)] && Accepted(t, b);
    StepKeepsBooks(t, QueryExpired(g, s.now));
    QueryKeepsIff(t, g, s.now);
    RunFirst(t, QueryExpired(g, s.now), []);
    RunsCompose(s, Issued(id, b, s.now), [QueryExpired(g, s.now)] + []);
  }

  /** A whole second request after a cleanup's query, while the cleanup is running: kept iff that had not expired. */
  lemma RequestAfterQueryKeepsIff(s: State, id: ObjectID, b: Token, d: nat, g: nat)
    requires Given(s, id, d) && Unused(s, b) && g !in s.sweeps
    ensures var steps := [QueryExpired(g, s.now)] + ([GenerateDownloadToken(id, b, true)] + []);
            CanRun(s, steps) && Books(Run(s, steps)) && (Kept(Run(s, steps)) <==> d <= TOKEN_LIFETIME)
  {
    var t := Apply(s, QueryExpired(g, s.now));
    StepKeepsBooks(s, QueryExpired(g, s.now));
    QueryKeepsIff(s, g, s.now);
    FoundIsDoomed(s.sweeps, g, ExpiredIDs(s.rows, s.now), id);
    StepKeepsBooks(t, GenerateDownloadToken(id, b, true));
    GenerateKeepsIff(t, id, b, true);
    RunFirst(t, GenerateDownloadToken(id, b, true), []);
    RunFirst(s, QueryExpired(g, s.now), [GenerateDownloadToken(id, b, true)] + []);
  }

  /** A cleanup that takes one object. */
  function Takes(g: nat, id: ObjectID, at: int): seq<Step> {
    [QueryExpired(g, at)] + ([CollectFile(g, id, true)] + ([CollectRow(g, true)] + []))
  }

  lemma TakesIsRun(s: State, g: nat, id: ObjectID)
    requires id in s.rows && RowExpired(s.rows[id], s.now) && g !in s.sweeps
    ensures CanRun(s, Takes(g, id, s.now))
    ensures var t := Run(s, Takes(g, id, s.now));
            id in t.collected && t.checked == s.checked && t.tokens == s.tokens && t.owed == s.owed && t.now == s.now
  {
    var s1 := Apply(s, QueryExpired(g, s.now));
    assert id in s1.sweeps[g].found;
    var s2 := Apply(s1, CollectFile(g, id, true));
    RunFirst(s2, CollectRow(g, true), []);
    RunFirst(s1, CollectFile(g, id, true), [CollectRow(g, true)] + []);
    RunFirst(s, QueryExpired(g, s.now), [CollectFile(g, id, true)] + ([CollectRow(g, true)] + []));
  }

  /** A second request that has read the status before a cleanup, and issues its token after it. */
  function TakenMeanwhile(id: ObjectID, b: Token, at: int, g: nat): seq<Step> {
    [ReadStatus(0, id)] + (Takes(g, id, at) + ([IssueToken(0, b, at)] + []))
  }

  lemma TakenMeanwhileLoses(s: State, id: ObjectID, b: Token, d: nat, g: nat)
    requires Given(s, id, d) && Unused(s, b) && g !in s.sweeps && d > TOKEN_LIFETIME
    ensures CanRun(s, TakenMeanwhile(id, b, s.now, g)) && b in Run(s, TakenMeanwhile(id, b, s.now, g)).lost
  {
    var s1 := Apply(s, ReadStatus(0, id));
    TakesIsRun(s1, g, id);
    var t := Run(s1, Takes(g, id, s.now));
    RunFirst(t, IssueToken(0, b, s.now), []);
    RunsCompose(s1, Takes(g, id, s.now), [IssueToken(0, b, s.now)] + []);
    RunFirst(s, ReadStatus(0, id), Takes(g, id, s.now) + ([IssueToken(0, b, s.now)] + []));
  }

  // ---------------------------------------------------------------- runs from the start that lose an object

  /** After these steps from the start, and nothing but cleanups then, an accepted token has lost its object. */
  ghost predicate LosesAfter(before: seq<Step>, steps: seq<Step>) {
    exists rest :: OnlyCollections(rest) && CanRun(Initial(0), before + (steps + rest))
                   && Run(Initial(0), before + (steps + rest)).lost != {}
  }

  lemma LossIsReached(before: seq<Step>, steps: seq<Step>)
    requires CanRun(Initial(0), before) && CanRun(Run(Initial(0), before), steps)
    requires Books(Run(Run(Initial(0), before), steps)) && !Kept(Run(Run(Initial(0), before), steps))
    ensures LosesAfter(before, steps)
  {
    var s := Run(Initial(0), before);
    var rest := UnkeptLoses(Run(s, steps));
    RunsCompose(s, steps, rest);
    RunsCompose(Initial(0), before, steps + rest);
  }

  function EmptyObject(id: ObjectID): seq<Step> {
    [InitUpload(id, 0, "")] + ([Upload(id, [], true, _ => "")] + [])
  }

  lemma EmptyObjectIsReady(id: ObjectID)
    requires IsID(id)
    ensures CanRun(Initial(0), EmptyObject(id))
    ensures var s := Run(Initial(0), EmptyObject(id));
            Ready(s, id) && s.tokens == map[] && s.owed == map[] && s.sweeps == map[] && s.now == 0
  {
    var upload := Upload(id, [], true, _ => "");
    var s1 := Apply(Initial(0), InitUpload(id, 0, ""));
    StepKeepsBooks(Initial(0), InitUpload(id, 0, ""));
    StepKeepsBooks(s1, upload);
    RunFirst(s1, upload, []);
    RunFirst(Initial(0), InitUpload(id, 0, ""), [upload] + []);
  }

  /** An object with one token, some time later. */
  function Before(id: ObjectID, a: Token, d: nat): seq<Step> {
    EmptyObject(id) + FirstToken(id, a, d)
  }

  lemma BeforeIsGiven(id: ObjectID, a: Token, d: nat)
    requires IsID(id)
    ensures CanRun(Initial(0), Before(id, a, d))
    ensures var s := Run(Initial(0), Before(id, a, d));
            Given(s, id, d) && s.tokens.Keys == {a} && s.sweeps == map[] && s.now == d
  {
    EmptyObjectIsReady(id);
    FirstIsGiven(Run(Initial(0), EmptyObject(id)), id, a, d);
    RunsCompose(Initial(0), EmptyObject(id), FirstToken(id, a, d));
  }

  /** Two overlapping requests that write in the other order, however close they are. */
  lemma OverlapLosesObject(id: ObjectID, a: Token, b: Token, d: nat)
    requires IsID(id) && a != b && d > 0
    ensures LosesAfter(EmptyObject(id), TwoIssued(id, a, b, 0, d) + TwoWrites(b, a))
  {
    EmptyObjectIsReady(id);
    OverlapKeepsIff(Run(Initial(0), EmptyObject(id)), id, a, b, d, false);
    LossIsReached(EmptyObject(id), TwoIssued(id, a, b, 0, d) + TwoWrites(b, a));
  }

  /** A later request that does not write its expiration. */
  lemma UnwrittenLosesObject(id: ObjectID, a: Token, b: Token, d: nat)
    requires IsID(id) && a != b && d > 0
    ensures LosesAfter(Before(id, a, d), [GenerateDownloadToken(id, b, false)] + [])
  {
    BeforeIsGiven(id, a, d);
    var s := Run(Initial(0), Before(id, a, d));
    UnwrittenSecondKeepsIff(s, id, b, d);
    RunFirst(s, GenerateDownloadToken(id, b, false), []);
    LossIsReached(Before(id, a, d), [GenerateDownloadToken(id, b, false)] + []);
  }

  /** A link's token after a token of the same object. */
  lemma LinkLosesObject(id: ObjectID, a: Token, b: Token, d: nat)
    requires IsID(id) && a != b && d > 0
    ensures LosesAfter(Before(id, a, d), [IssueLink(id, b, d)] + [])
  {
    BeforeIsGiven(id, a, d);
    var s := Run(Initial(0), Before(id, a, d));
    LinkSecondKeepsIff(s, id, b, d);
    RunFirst(s, IssueLink(id, b, d), []);
    LossIsReached(Before(id, a, d), [IssueLink(id, b, d)] + []);
  }

  /** A cleanup's query between the two writes of a request for an expired object. */
  lemma QueryHalfWayLosesObject(id: ObjectID, a: Token, b: Token, d: nat)
    requires IsID(id) && a != b && d > TOKEN_LIFETIME
    ensures LosesAfter(Before(id, a, d), Issued(id, b, d) + ([QueryExpired(0, d)] + []))
  {
    BeforeIsGiven(id, a, d);
    QueryHalfWayKeepsIff(Run(Initial(0), Before(id, a, d)), id, b, d, 0);
    LossIsReached(Before(id, a, d), Issued(id, b, d) + ([QueryExpired(0, d)] + []));
  }

  /** A whole request, its expiration written, for an object that a running cleanup has found. */
  lemma RequestAfterQueryLosesObject(id: ObjectID, a: Token, b: Token, d: nat)
    requires IsID(id) && a != b && d > TOKEN_LIFETIME
    ensures LosesAfter(Before(id, a, d), [QueryExpired(0, d)] + ([GenerateDownloadToken(id, b, true)] + []))
  {
    BeforeIsGiven(id, a, d);
    RequestAfterQueryKeepsIff(Run(Initial(0), Before(id, a, d)), id, b, d, 0);
    LossIsReached(Before(id, a, d), [QueryExpired(0, d)] + ([GenerateDownloadToken(id, b, true)] + []));
  }

  /** A request that has read its object's status before a cleanup takes it. */
  lemma TakenMeanwhileLosesObject(id: ObjectID, a: Token, b: Token, d: nat)
    requires IsID(id) && a != b && d > TOKEN_LIFETIME
    ensures LosesAfter(Before(id, a, d), TakenMeanwhile(id, b, d, 0))
  {
    BeforeIsGiven(id, a, d);
    var s := Run(Initial(0), Before(id, a, d));
    TakenMeanwhileLoses(s, id, b, d, 0);
    RunKeepsBooks(s, TakenMeanwhile(id, b, d, 0));
    LossIsReached(Before(id, a, d), TakenMeanwhile(id, b, d, 0));
  }
}
