/** The promise that a token keeps its object from garbage collection, and exactly when it is kept. */
module Retention {
  import opened Wrappers
  import opened ObjectStore
  import opened ObjectStorage
  import opened RetentionProtocol

  // ---------------------------------------------------------------- the promise

  /** An object's expiry is unset or no earlier than that of a token issued for it. */
  predicate Outlives(rows: Rows, e: TokenEntry) {
    NotBefore(rows, ObjectOf(e), e.expiresAt)
  }

  predicate NotBefore(rows: Rows, id: ObjectID, at: int) {
    id in rows && rows[id].expiresAt.Some? ==> at <= rows[id].expiresAt.value
  }

  /** The token is accepted, and the request that issued it is over: it may be in a client's hands. */
  predicate HandedOut(s: State, k: Token) {
    Accepted(s, k) && k !in s.owed
  }

  ghost predicate Promised(s: State) {
    forall k :: HandedOut(s, k) ==> Outlives(s.rows, s.tokens[k])
  }

  predicate Spared(s: State, id: ObjectID) {
    id in s.rows ==> !Doomed(s.sweeps, id)
  }

  /** No running cleanup has found the object of an accepted token. */
  ghost predicate Untouched(s: State) {
    forall k :: Accepted(s, k) ==> Spared(s, ObjectOf(s.tokens[k]))
  }

  /** No accepted token has lost its object, no cleanup is about to take it, and none will once it is handed out. */
  ghost predicate Kept(s: State) {
    s.lost == {} && Untouched(s) && Promised(s)
  }

  // ---------------------------------------------------------------- what the steps may not do

  /**
   A token is issued only for an object that no cleanup has found or taken; no request fails to write its expiration
   when the object has an earlier one, or writes it below that of a token already handed out for the object; a link's
   token is issued only while the object has no earlier expiration; and no cleanup's query comes between the two
   writes of a request for an expired object.
   */
  ghost predicate InOrder(s: State, step: Step) {
    match step
    case IssueLink(id, _, at) => MayGrant(s, id, at) && (InTime(s, at) ==> NotBefore(s.rows, id, at + TOKEN_LIFETIME))
    case GenerateDownloadToken(id, _, written) =>
      Complete(s.rows, id) ==> MayGrant(s, id, s.now) && (!written ==> NotBefore(s.rows, id, s.now + TOKEN_LIFETIME))
    case IssueToken(r, _, at) => r in s.checked ==> MayGrant(s, s.checked[r], at)
    case WriteExpiration(token, written) =>
      token in s.owed ==> if written then NotOvertaken(s, token) else WriteIsSpare(s, token)
    case QueryExpired(_, at) => NoneWaits(s, at)
    case _ => true
  }

  /** A token whose expiry was computed then is still accepted. */
  predicate InTime(s: State, at: int) {
    s.now <= at + TOKEN_LIFETIME
  }

  predicate MayGrant(s: State, id: ObjectID, at: int) {
    InTime(s, at) ==> Spared(s, id) && id !in s.collected
  }

  /** No token of a later expiry has been handed out for the object of this request. */
  ghost predicate NotOvertaken(s: State, token: Token)
    requires token in s.owed
  {
    ObjectOf(s.owed[token]) in s.rows ==>
      forall k :: HandedOut(s, k) && ObjectOf(s.tokens[k]) == ObjectOf(s.owed[token]) ==>
        s.tokens[k].expiresAt <= s.owed[token].expiresAt
  }

  predicate WriteIsSpare(s: State, token: Token)
    requires token in s.owed
  {
    Accepted(s, token) ==> NotBefore(s.rows, ObjectOf(s.owed[token]), s.owed[token].expiresAt)
  }

  ghost predicate NoneWaits(s: State, at: int) {
    forall k :: k in s.owed && Accepted(s, k) && ObjectOf(s.owed[k]) in s.rows ==>
      !RowExpired(s.rows[ObjectOf(s.owed[k])], at)
  }

  // ---------------------------------------------------------------- step by step

  /** Nothing is granted or found, and no row is given an expiration, or another one. */
  ghost predicate GoesOn(s: State, t: State) {
    && t.lost == s.lost
    && (forall k :: Accepted(t, k) ==> Accepted(s, k) && t.tokens[k] == s.tokens[k])
    && (forall k :: HandedOut(t, k) ==> HandedOut(s, k))
    && (forall id :: Doomed(t.sweeps, id) ==> Doomed(s.sweeps, id))
    && (forall id :: id in t.rows && id in s.rows ==> t.rows[id].expiresAt == s.rows[id].expiresAt)
    && (forall id :: id in t.rows && id !in s.rows ==> t.rows[id].expiresAt.None? && !Doomed(t.sweeps, id))
  }

  lemma GoingOnKeeps(s: State, t: State)
    requires Kept(s) && GoesOn(s, t)
    ensures Kept(t)
  {
    forall k | Accepted(t, k) ensures Spared(t, ObjectOf(t.tokens[k])) {
      assert Spared(s, ObjectOf(s.tokens[k]));
    }
    forall k | HandedOut(t, k) ensures Outlives(t.rows, t.tokens[k]) {
      assert Outlives(s.rows, s.tokens[k]);
    }
  }

  lemma UploadKeeps(s: State, id: ObjectID, bytes: Bytes, clean: bool, digest: Digest)
    requires Kept(s)
    ensures Kept(Apply(s, Upload(id, bytes, clean, digest)))
  {
    GoingOnKeeps(s, Apply(s, Upload(id, bytes, clean, digest)));
  }

  lemma InitKeeps(s: State, id: ObjectID, fileSize: int, sha256: string)
    requires Books(s) && Kept(s) && id !in s.issued
    ensures Kept(s.(rows := s.rows[id := NewRow(id, fileSize, sha256)], issued := s.issued + {id}))
  {
    GoingOnKeeps(s, s.(rows := s.rows[id := NewRow(id, fileSize, sha256)], issued := s.issued + {id}));
  }

  lemma QuietStepKeeps(s: State, step: Step)
    requires Kept(s) && Enabled(s, step)
    requires step.Tick? || step.LateFailure? || step.DeleteObject? || step.RevokeToken? || step.CleanupTokens?
             || step.ReadStatus?
    ensures Kept(Apply(s, step))
  {
    GoingOnKeeps(s, Apply(s, step));
  }

  lemma SweepKeeps(s: State, g: nat, sweep: Sweep)
    requires Books(s) && Kept(s) && g in s.sweeps && sweep.found <= s.sweeps[g].found
    requires sweep.clearing.Some? ==> sweep.clearing.value in s.sweeps[g].found
    ensures Kept(s.(sweeps := s.sweeps[g := sweep]))
  {
    SweepMoveKeepsBooks(s, g, sweep);
    GoingOnKeeps(s, s.(sweeps := s.sweeps[g := sweep]));
  }

  /** What a cleanup takes has no accepted token. */
  lemma NothingIsLost(s: State, id: ObjectID, ok: bool)
    requires Kept(s) && Doomed(s.sweeps, id)
    ensures WithLoss(s, id, ok).lost == {} && Kept(WithLoss(s, id, ok))
  {
    forall k | k in s.tokens && Accepted(s, k) && id in s.rows ensures ObjectOf(s.tokens[k]) != id {
      assert Spared(s, ObjectOf(s.tokens[k]));
    }
    GoingOnKeeps(s, WithLoss(s, id, ok));
  }

  /** Files do not matter to the promise. */
  lemma FilesKeep(s: State, files: Files)
    requires Kept(s)
    ensures Kept(s.(files := files))
  {
    GoingOnKeeps(s, s.(files := files));
  }

  lemma FileKeeps(s: State, g: nat, id: ObjectID, ok: bool)
    requires Books(s) && Kept(s) && Enabled(s, CollectFile(g, id, ok))
    ensures Kept(Apply(s, CollectFile(g, id, ok)))
  {
    NothingIsLost(s, id, ok);
    LossKeepsBooks(s, id, ok);
    var u := WithLoss(s, id, ok);
    var sweep := Sweep(s.sweeps[g].found - {id}, Some(id));
    SweepKeeps(u, g, sweep);
    FilesKeep(u.(sweeps := u.sweeps[g := sweep]), Apply(s, CollectFile(g, id, ok)).files);
  }

  lemma RowGoneKeeps(s: State, id: ObjectID)
    requires Kept(s)
    ensures Kept(s.(rows := Without(s.rows, id)))
  {
    GoingOnKeeps(s, s.(rows := Without(s.rows, id)));
  }

  lemma RowKeeps(s: State, g: nat, ok: bool)
    requires Books(s) && Kept(s) && Enabled(s, CollectRow(g, ok))
    ensures Kept(Apply(s, CollectRow(g, ok)))
  {
    var id := s.sweeps[g].clearing.value;
    NothingIsLost(s, id, ok);
    LossKeepsBooks(s, id, ok);
    var u := WithLoss(s, id, ok);
    var sweep := Sweep(s.sweeps[g].found, None);
    SweepKeeps(u, g, sweep);
    RowGoneKeeps(u.(sweeps := u.sweeps[g := sweep]), id);
  }

  /** A token is issued and handed out at once. */
  lemma GrantKeepsIff(s: State, id: ObjectID, token: Token, at: int)
    requires Kept(s) && Unused(s, token)
    ensures Kept(WithToken(s, id, token, at))
            <==> MayGrant(s, id, at) && (InTime(s, at) ==> NotBefore(s.rows, id, at + TOKEN_LIFETIME))
  {
    var t := WithToken(s, id, token, at);
    assert Accepted(t, token) <==> InTime(s, at);
    assert HandedOut(t, token) <==> InTime(s, at);
    assert forall k :: k != token ==> (Accepted(t, k) <==> Accepted(s, k));
    if MayGrant(s, id, at) && (InTime(s, at) ==> NotBefore(s.rows, id, at + TOKEN_LIFETIME)) {
      forall k | Accepted(t, k) && k != token
        ensures Spared(t, ObjectOf(t.tokens[k])) && (HandedOut(t, k) ==> Outlives(t.rows, t.tokens[k])) {
        assert Spared(s, ObjectOf(s.tokens[k]));
        assert HandedOut(t, k) ==> HandedOut(s, k);
      }
    }
  }

  /** A token is issued by a request that has yet to write the expiration. */
  lemma IssueKeepsIff(s: State, r: nat, token: Token, at: int)
    requires Kept(s) && Enabled(s, IssueToken(r, token, at))
    ensures Kept(Apply(s, IssueToken(r, token, at))) <==> MayGrant(s, s.checked[r], at)
  {
    var t := Apply(s, IssueToken(r, token, at));
    assert Accepted(t, token) <==> InTime(s, at);
    assert forall k :: k != token ==> (Accepted(t, k) <==> Accepted(s, k));
    if MayGrant(s, s.checked[r], at) {
      forall k | Accepted(t, k) && k != token
        ensures Spared(t, ObjectOf(t.tokens[k])) && (HandedOut(t, k) ==> Outlives(t.rows, t.tokens[k])) {
        assert Spared(s, ObjectOf(s.tokens[k]));
        assert HandedOut(t, k) ==> HandedOut(s, k);
      }
    }
  }

  /** A new token's expiry is no earlier than that of any token before it: moving the object's there harms none. */
  lemma ExpireKeeps(s: State, id: ObjectID)
    requires Books(s) && Kept(s)
    ensures Kept(s.(rows := Expire(s.rows, id, s.now + TOKEN_LIFETIME)))
  {
    var t := s.(rows := Expire(s.rows, id, s.now + TOKEN_LIFETIME));
    forall k | Accepted(t, k)
      ensures Spared(t, ObjectOf(t.tokens[k])) && (HandedOut(t, k) ==> Outlives(t.rows, t.tokens[k])) {
      assert Accepted(s, k) && Spared(s, ObjectOf(s.tokens[k]));
      assert HandedOut(t, k) ==> HandedOut(s, k);
    }
  }

  lemma GenerateKeepsIff(s: State, id: ObjectID, token: Token, written: bool)
    requires Books(s) && Kept(s) && Unused(s, token) && Complete(s.rows, id)
    ensures Kept(Generated(s, id, token, written)) <==> InOrder(s, GenerateDownloadToken(id, token, written))
  {
    if written {
      ExpireKeeps(s, id);
    }
    GrantKeepsIff(BeforeGrant(s, id, written), id, token, s.now);
  }

  /** An expiration write breaks the promise exactly when a later token has been handed out for the object. */
  lemma WriteKeepsIff(s: State, token: Token)
    requires Books(s) && Kept(s) && token in s.owed
    ensures Kept(Apply(s, WriteExpiration(token, true))) <==> NotOvertaken(s, token)
  {
    var t := Apply(s, WriteExpiration(token, true));
    var id := ObjectOf(s.owed[token]);
    assert forall k :: Accepted(t, k) <==> Accepted(s, k);
    assert Untouched(t) by {
      forall k | Accepted(t, k) ensures Spared(t, ObjectOf(t.tokens[k])) {
        assert Spared(s, ObjectOf(s.tokens[k]));
      }
    }
    if NotOvertaken(s, token) {
      forall k | HandedOut(t, k) ensures Outlives(t.rows, t.tokens[k]) {
        assert k == token || HandedOut(s, k);
      }
    }
    if Promised(t) && id in s.rows {
      forall k | HandedOut(s, k) && ObjectOf(s.tokens[k]) == id
        ensures s.tokens[k].expiresAt <= s.owed[token].expiresAt {
        assert HandedOut(t, k);
      }
    }
  }

  lemma UnwrittenKeepsIff(s: State, token: Token)
    requires Books(s) && Kept(s) && token in s.owed
    ensures Kept(Apply(s, WriteExpiration(token, false))) <==> WriteIsSpare(s, token)
  {
    var t := Apply(s, WriteExpiration(token, false));
    assert forall k :: Accepted(t, k) <==> Accepted(s, k);
    assert Untouched(t) by {
      forall k | Accepted(t, k) ensures Spared(t, ObjectOf(t.tokens[k])) {
        assert Spared(s, ObjectOf(s.tokens[k]));
      }
    }
    assert token in s.tokens ==> s.tokens[token] == s.owed[token];
    if WriteIsSpare(s, token) {
      forall k | HandedOut(t, k) ensures Outlives(t.rows, t.tokens[k]) {
        assert k == token || HandedOut(s, k);
      }
    }
    if Promised(t) && Accepted(s, token) {
      assert HandedOut(t, token);
    }
  }

  /** A query finds an accepted token's object exactly when a request for one that has expired is half way. */
  lemma QueryKeepsIff(s: State, g: nat, at: int)
    requires Books(s) && Kept(s) && Enabled(s, QueryExpired(g, at))
    ensures Kept(Apply(s, QueryExpired(g, at))) <==> NoneWaits(s, at)
  {
    var t := Apply(s, QueryExpired(g, at));
    assert forall k :: Accepted(t, k) <==> Accepted(s, k);
    forall id ensures Doomed(t.sweeps, id) <==> Doomed(s.sweeps, id) || id in ExpiredIDs(s.rows, at) {
      FoundIsDoomed(s.sweeps, g, ExpiredIDs(s.rows, at), id);
    }
    assert Promised(t) by {
      forall k | HandedOut(t, k) ensures Outlives(t.rows, t.tokens[k]) {
        assert HandedOut(s, k);
      }
    }
    if NoneWaits(s, at) {
      forall k | Accepted(t, k) ensures Spared(t, ObjectOf(t.tokens[k])) {
        assert Spared(s, ObjectOf(s.tokens[k]));
        assert k in s.owed || HandedOut(s, k);
      }
    }
    if Untouched(t) {
      forall k | k in s.owed && Accepted(s, k) && ObjectOf(s.owed[k]) in s.rows
        ensures !RowExpired(s.rows[ObjectOf(s.owed[k])], at) {
        assert Spared(t, ObjectOf(t.tokens[k]));
      }
    }
  }

  /** Exactly the steps that are in order keep the promise, whatever overlaps. */
  lemma StepKeepsIffInOrder(s: State, step: Step)
    requires Books(s) && Kept(s) && Enabled(s, step)
    ensures Kept(Apply(s, step)) <==> InOrder(s, step)
  {
    match step
    case InitUpload(id, fileSize, sha256) => InitKeeps(s, id, fileSize, sha256);
    case Upload(id, bytes, clean, digest) => UploadKeeps(s, id, bytes, clean, digest);
    case IssueLink(id, token, at) => GrantKeepsIff(s, id, token, at);
    case GenerateDownloadToken(id, token, written) =>
      if Complete(s.rows, id) { GenerateKeepsIff(s, id, token, written); }
    case IssueToken(r, token, at) => IssueKeepsIff(s, r, token, at);
    case WriteExpiration(token, written) =>
      if written { WriteKeepsIff(s, token); } else { UnwrittenKeepsIff(s, token); }
    case QueryExpired(g, at) => QueryKeepsIff(s, g, at);
    case SkipObject(g, id) => SweepKeeps(s, g, Sweep(s.sweeps[g].found - {id}, None));
    case CollectFile(g, id, ok) => FileKeeps(s, g, id, ok);
    case CollectRow(g, ok) => RowKeeps(s, g, ok);
    case _ => QuietStepKeeps(s, step);
  }

  // ---------------------------------------------------------------- the promise over runs

  ghost predicate AlwaysKept(s: State, steps: seq<Step>)
    requires CanRun(s, steps)
    decreases |steps|
  {
    Kept(s) && (steps != [] ==> AlwaysKept(Apply(s, steps[0]), steps[1..]))
  }

  ghost predicate AlwaysInOrder(s: State, steps: seq<Step>)
    requires CanRun(s, steps)
    decreases |steps|
  {
    steps != [] ==> InOrder(s, steps[0]) && AlwaysInOrder(Apply(s, steps[0]), steps[1..])
  }

  /**
   Token retention, for every interleaving of any number of requests and cleanups: it is kept all along a run if and
   only if every step of the run is in order.
   */
  lemma {:induction false} RetentionIffInOrder(s: State, steps: seq<Step>)
    requires Books(s) && Kept(s) && CanRun(s, steps)
    ensures AlwaysKept(s, steps) <==> AlwaysInOrder(s, steps)
    ensures AlwaysKept(s, steps) ==> Kept(Run(s, steps))
    ensures Books(Run(s, steps))
    decreases |steps|
  {
    if steps != [] {
      var t := Apply(s, steps[0]);
      StepKeepsBooks(s, steps[0]);
      StepKeepsIffInOrder(s, steps[0]);
      if Kept(t) {
        RetentionIffInOrder(t, steps[1..]);
      } else {
        assert !AlwaysKept(t, steps[1..]);
        RunKeepsBooks(t, steps[1..]);
      }
    }
  }

  // ---------------------------------------------------------------- what the promise is about

  /** Time passing, and cleanups at their work. */
  predicate IsCollection(step: Step) {
    step.Tick? || step.QueryExpired? || step.SkipObject? || step.CollectFile? || step.CollectRow?
  }

  predicate OnlyCollections(steps: seq<Step>) {
    forall i :: 0 <= i < |steps| ==> IsCollection(steps[i])
  }

  /** The object of a token, row and file, is there as it was. */
  predicate ObjectStays(s: State, t: State, id: ObjectID) {
    && (id in s.rows ==> id in t.rows && t.rows[id] == s.rows[id])
    && (id in s.rows && StoragePath(id) in s.files ==>
          StoragePath(id) in t.files && t.files[StoragePath(id)] == s.files[StoragePath(id)])
  }

  /** No cleanup has found the object of an accepted token, and its expiry is unset or no earlier than the token's. */
  predicate Safe(s: State, k: Token)
    requires k in s.tokens
  {
    Spared(s, ObjectOf(s.tokens[k])) && Outlives(s.rows, s.tokens[k])
  }

  lemma ClockNeverGoesBack(s: State, step: Step)
    requires Enabled(s, step)
    ensures s.now <= Apply(s, step).now
  {
  }

  lemma {:induction false} RunClockNeverGoesBack(s: State, steps: seq<Step>)
    requires CanRun(s, steps)
    ensures s.now <= Run(s, steps).now
    decreases |steps|
  {
    if steps != [] {
      ClockNeverGoesBack(s, steps[0]);
      RunClockNeverGoesBack(Apply(s, steps[0]), steps[1..]);
    }
  }

  /** An object that no cleanup has found keeps its row and file through a cleanup's step on another one. */
  lemma SparedStays(s: State, step: Step, id: ObjectID)
    requires Books(s) && Enabled(s, step) && IsCollection(step) && Spared(s, id)
    ensures ObjectStays(s, Apply(s, step), id)
  {
    if id in s.rows {
      if step.CollectFile? {
        assert step.id != id;
        assert Doomed(s.sweeps, step.id);
        PathsAreApart(id, step.id, "", "");
      } else if step.CollectRow? {
        assert s.sweeps[step.g].clearing != Some(id);
      }
    }
  }

  lemma SparedStaysSpared(s: State, step: Step, k: Token)
    requires Books(s) && Enabled(s, step) && IsCollection(step) && Accepted(s, k) && Safe(s, k)
    ensures Spared(Apply(s, step), ObjectOf(s.tokens[k]))
  {
    var id := ObjectOf(s.tokens[k]);
    match step
    case Tick(_) =>
    case QueryExpired(g, at) => FoundIsDoomed(s.sweeps, g, ExpiredIDs(s.rows, at), id);
    case SkipObject(g, other) => SweepMoveKeepsBooks(s, g, Sweep(s.sweeps[g].found - {other}, None));
    case CollectFile(g, other, _) => SweepMoveKeepsBooks(s, g, Sweep(s.sweeps[g].found - {other}, Some(other)));
    case CollectRow(g, _) => SweepMoveKeepsBooks(s, g, Sweep(s.sweeps[g].found, None));
  }

  lemma StepKeepsSafe(s: State, step: Step, k: Token)
    requires Books(s) && Enabled(s, step) && IsCollection(step) && k in s.tokens && Safe(s, k)
    requires Apply(s, step).now <= s.tokens[k].expiresAt
    ensures var t := Apply(s, step);
            t.tokens == s.tokens && Safe(t, k) && ObjectStays(s, t, ObjectOf(s.tokens[k]))
  {
    ClockNeverGoesBack(s, step);
    SparedStays(s, step, ObjectOf(s.tokens[k]));
    SparedStaysSpared(s, step, k);
  }

  lemma {:induction false} SafeSurvives(s: State, steps: seq<Step>, k: Token)
    requires Books(s) && CanRun(s, steps) && OnlyCollections(steps) && k in s.tokens && Safe(s, k)
    requires Run(s, steps).now <= s.tokens[k].expiresAt
    ensures ObjectStays(s, Run(s, steps), ObjectOf(s.tokens[k]))
    decreases |steps|
  {
    if steps != [] {
      assert IsCollection(steps[0]);
      assert OnlyCollections(steps[1..]);
      RunClockNeverGoesBack(Apply(s, steps[0]), steps[1..]);
      StepKeepsBooks(s, steps[0]);
      StepKeepsSafe(s, steps[0], k);
      SafeSurvives(Apply(s, steps[0]), steps[1..], k);
    }
  }

  lemma {:induction false} CollectionsKeepTokens(s: State, steps: seq<Step>)
    requires CanRun(s, steps) && OnlyCollections(steps)
    ensures Run(s, steps).tokens == s.tokens
    decreases |steps|
  {
    if steps != [] {
      assert IsCollection(steps[0]);
      assert OnlyCollections(steps[1..]);
      CollectionsKeepTokens(Apply(s, steps[0]), steps[1..]);
    }
  }

  // ---------------------------------------------------------------- how an object is lost

  /** A cleanup that has come to the object takes its row. */
  lemma ClearedIsLost(s: State, g: nat, k: Token)
    requires Accepted(s, k) && ObjectOf(s.tokens[k]) in s.rows
    requires g in s.sweeps && s.sweeps[g].clearing == Some(ObjectOf(s.tokens[k]))
    ensures var steps := [CollectRow(g, true)];
            CanRun(s, steps) && OnlyCollections(steps) && IsLost(Run(s, steps), k)
  {
    RunFirst(s, CollectRow(g, true), []);
    assert [CollectRow(g, true)] + [] == [CollectRow(g, true)];
    assert k in LostWith(s, ObjectOf(s.tokens[k]));
  }

  /** The token is accepted, and its object has been collected. */
  predicate IsLost(s: State, k: Token) {
    Accepted(s, k) && k in s.lost && ObjectOf(s.tokens[k]) !in s.rows
  }

  lemma NextIsLost(s: State, g: nat, k: Token) returns (steps: seq<Step>)
    requires Accepted(s, k) && ObjectOf(s.tokens[k]) in s.rows && NextFor(s, g, ObjectOf(s.tokens[k]))
    ensures CanRun(s, steps) && OnlyCollections(steps) && IsLost(Run(s, steps), k)
  {
    var step := CollectFile(g, ObjectOf(s.tokens[k]), true);
    var t := Apply(s, step);
    ClearedIsLost(t, g, k);
    RunFirst(s, step, [CollectRow(g, true)]);
    steps := [step] + [CollectRow(g, true)];
  }

  /** Whichever object the cleanup is at, it comes to this one. */
  lemma DoomedIsLost(s: State, k: Token) returns (steps: seq<Step>)
    requires Accepted(s, k) && ObjectOf(s.tokens[k]) in s.rows && Doomed(s.sweeps, ObjectOf(s.tokens[k]))
    ensures CanRun(s, steps) && OnlyCollections(steps) && IsLost(Run(s, steps), k)
  {
    var id := ObjectOf(s.tokens[k]);
    var g :| g in s.sweeps && (id in s.sweeps[g].found || s.sweeps[g].clearing == Some(id));
    if s.sweeps[g].clearing == Some(id) {
      ClearedIsLost(s, g, k);
      steps := [CollectRow(g, true)];
    } else if s.sweeps[g].clearing.None? {
      steps := NextIsLost(s, g, k);
    } else {
      var t := Apply(s, CollectRow(g, false));
      var rest := NextIsLost(t, g, k);
      RunFirst(s, CollectRow(g, false), rest);
      steps := [CollectRow(g, false)] + rest;
    }
  }

  /** Once the object's expiry has passed, a new cleanup finds it. */
  lemma OutlivedIsLost(s: State, k: Token) returns (steps: seq<Step>)
    requires Accepted(s, k) && ObjectOf(s.tokens[k]) in s.rows && !Outlives(s.rows, s.tokens[k])
    ensures CanRun(s, steps) && OnlyCollections(steps) && IsLost(Run(s, steps), k)
  {
    var g := Fresh(s.sweeps.Keys);
    var t := Apply(s, Tick(s.tokens[k].expiresAt - s.now));
    assert Accepted(t, k);
    var u := Apply(t, QueryExpired(g, t.now));
    assert ObjectOf(s.tokens[k]) in ExpiredIDs(t.rows, t.now);
    var rest := NextIsLost(u, g, k);
    RunFirst(t, QueryExpired(g, t.now), rest);
    RunFirst(s, Tick(s.tokens[k].expiresAt - s.now), [QueryExpired(g, t.now)] + rest);
    steps := [Tick(s.tokens[k].expiresAt - s.now)] + ([QueryExpired(g, t.now)] + rest);
  }

  lemma Fresh(used: set<nat>) returns (g: nat)
    ensures g !in used && forall h :: h in used ==> h < g
    decreases |used|
  {
    if used == {} {
      g := 0;
    } else {
      var h :| h in used;
      var f := Fresh(used - {h});
      g := if h < f then f else h + 1;
      assert used == (used - {h}) + {h};
    }
  }

  lemma UnsafeIsLost(s: State, k: Token) returns (steps: seq<Step>)
    requires Accepted(s, k) && !Safe(s, k)
    ensures CanRun(s, steps) && OnlyCollections(steps) && IsLost(Run(s, steps), k)
  {
    if !Spared(s, ObjectOf(s.tokens[k])) {
      steps := DoomedIsLost(s, k);
    } else {
      steps := OutlivedIsLost(s, k);
    }
  }

  /**
   A token's object survives whatever cleanups do, running ones and new ones, for as long as the token is accepted, if
   and only if none has found it and its expiry is unset or no earlier than the token's.
   */
  lemma SurvivesIffSafe(s: State, k: Token)
    requires Books(s) && Accepted(s, k)
    ensures Safe(s, k)
            <==> forall steps :: CanRun(s, steps) && OnlyCollections(steps) && Accepted(Run(s, steps), k) ==>
                   ObjectStays(s, Run(s, steps), ObjectOf(s.tokens[k]))
  {
    if Safe(s, k) {
      forall steps | CanRun(s, steps) && OnlyCollections(steps) && Accepted(Run(s, steps), k)
        ensures ObjectStays(s, Run(s, steps), ObjectOf(s.tokens[k])) {
        CollectionsKeepTokens(s, steps);
        SafeSurvives(s, steps, k);
      }
    } else {
      var steps := UnsafeIsLost(s, k);
      CollectionsKeepTokens(s, steps);
    }
  }

  lemma UnkeptLoses(s: State) returns (steps: seq<Step>)
    requires Books(s) && !Kept(s)
    ensures CanRun(s, steps) && OnlyCollections(steps) && Run(s, steps).lost != {}
  {
    if s.lost != {} {
      steps := [];
    } else if !Untouched(s) {
      var k :| Accepted(s, k) && !Spared(s, ObjectOf(s.tokens[k]));
      steps := UnsafeIsLost(s, k);
    } else {
      var k :| HandedOut(s, k) && !Outlives(s.rows, s.tokens[k]);
      steps := UnsafeIsLost(s, k);
    }
  }

  /** So a run that leaves the promised order can, by cleanups alone, lose the object of an accepted token. */
  lemma {:induction false} OutOfOrderLoses(s: State, steps: seq<Step>) returns (n: nat, rest: seq<Step>)
    requires Books(s) && Kept(s) && CanRun(s, steps) && !AlwaysInOrder(s, steps)
    ensures n <= |steps| && CanRun(s, steps[..n])
    ensures OnlyCollections(rest) && CanRun(Run(s, steps[..n]), rest) && Run(Run(s, steps[..n]), rest).lost != {}
    decreases |steps|
  {
    var t := Apply(s, steps[0]);
    StepKeepsBooks(s, steps[0]);
    StepKeepsIffInOrder(s, steps[0]);
    if Kept(t) {
      n, rest := OutOfOrderLoses(t, steps[1..]);
      n := n + 1;
      assert steps[..n][1..] == steps[1..][..n - 1];
    } else {
      n := 1;
      assert steps[..1][1..] == [];
      rest := UnkeptLoses(t);
    }
  }

  /**
   After every run whose steps are in order no accepted token has lost its object, and one that has been handed out
   keeps it, row and file, whatever cleanups do while it is accepted.
   */
  lemma HandedOutTokenKeepsObject(now: int, steps: seq<Step>, token: Token)
    requires CanRun(Initial(now), steps) && AlwaysInOrder(Initial(now), steps)
    requires HandedOut(Run(Initial(now), steps), token)
    ensures var s := Run(Initial(now), steps);
            && s.lost == {}
            && forall rest :: CanRun(s, rest) && OnlyCollections(rest) && Accepted(Run(s, rest), token) ==>
                 ObjectStays(s, Run(s, rest), ObjectOf(s.tokens[token]))
  {
    RetentionIffInOrder(Initial(now), steps);
    SurvivesIffSafe(Run(Initial(now), steps), token);
  }

  // ---------------------------------------------------------------- one handler at a time

  predicate Idle(s: State) {
    forall g :: g in s.sweeps ==> s.sweeps[g].found == {} && s.sweeps[g].clearing.None?
  }

  /**
   Token requests are whole, write their expiration, and begin while no cleanup is running; a link's token is issued
   before any other token of its object; and cleanups do not fail to delete a row.
   */
  predicate Serial(s: State, step: Step) {
    match step
    case ReadStatus(_, _) => false
    case IssueToken(_, _, _) => false
    case WriteExpiration(_, _) => false
    case GenerateDownloadToken(_, _, written) => written && Idle(s)
    case IssueLink(id, _, _) => id == "" || (id in s.rows && s.rows[id].expiresAt.None?)
    case CollectRow(_, ok) => ok
    case _ => true
  }

  predicate AllSerial(s: State, steps: seq<Step>)
    requires CanRun(s, steps)
    decreases |steps|
  {
    steps != [] ==> Serial(s, steps[0]) && AllSerial(Apply(s, steps[0]), steps[1..])
  }

  /** No request is under way, and what cleanups took is gone or about to go. */
  ghost predicate SerialBooks(s: State) {
    Books(s) && s.owed == map[] && forall id :: id in s.collected && id in s.rows ==> BeingCleared(s, id)
  }

  predicate BeingCleared(s: State, id: ObjectID) {
    exists g :: g in s.sweeps && s.sweeps[g].clearing == Some(id)
  }

  lemma SerialStepIsInOrder(s: State, step: Step)
    requires SerialBooks(s) && Enabled(s, step) && Serial(s, step)
    ensures InOrder(s, step)
  {
    if step.GenerateDownloadToken? {
      assert step.id in s.rows && step.id in s.collected ==> BeingCleared(s, step.id);
    } else if step.IssueLink? && step.id == "" {
      assert step.id !in s.rows && step.id !in s.collected by {
        assert !IsID("");
      }
    }
  }

  lemma SerialStepKeepsBooks(s: State, step: Step)
    requires SerialBooks(s) && Enabled(s, step) && Serial(s, step)
    ensures SerialBooks(Apply(s, step))
  {
    StepKeepsBooks(s, step);
    var t := Apply(s, step);
    forall id | id in t.collected && id in t.rows ensures BeingCleared(t, id) {
      SerialClears(s, step, id);
    }
  }

  lemma TakenBefore(s: State, step: Step, id: ObjectID)
    requires Books(s) && Enabled(s, step) && Serial(s, step) && !(step.CollectFile? && step.id == id)
    requires id in Apply(s, step).collected && id in Apply(s, step).rows
    ensures id in s.collected && id in s.rows
  {
  }

  lemma SerialClears(s: State, step: Step, id: ObjectID)
    requires SerialBooks(s) && Enabled(s, step) && Serial(s, step)
    requires id in Apply(s, step).collected && id in Apply(s, step).rows
    ensures BeingCleared(Apply(s, step), id)
  {
    var t := Apply(s, step);
    if step.CollectFile? && step.id == id {
      assert t.sweeps[step.g].clearing == Some(id);
    } else {
      TakenBefore(s, step, id);
      var g :| g in s.sweeps && s.sweeps[g].clearing == Some(id);
      assert g in t.sweeps && t.sweeps[g].clearing == Some(id);
    }
  }

  lemma {:induction false} SerialIsInOrder(s: State, steps: seq<Step>)
    requires SerialBooks(s) && CanRun(s, steps) && AllSerial(s, steps)
    ensures AlwaysInOrder(s, steps) && SerialBooks(Run(s, steps))
    decreases |steps|
  {
    if steps != [] {
      SerialStepIsInOrder(s, steps[0]);
      SerialStepKeepsBooks(s, steps[0]);
      SerialIsInOrder(Apply(s, steps[0]), steps[1..]);
    }
  }

  /** Then no cleanup, running or new, takes an object as long as it has a token that ValidateToken would accept. */
  lemma ValidTokenSurvivesCleanup(now: int, steps: seq<Step>, token: Token)
    requires CanRun(Initial(now), steps) && AllSerial(Initial(now), steps) && Accepted(Run(Initial(now), steps), token)
    ensures var s := Run(Initial(now), steps);
            && s.lost == {}
            && forall rest :: CanRun(s, rest) && OnlyCollections(rest) && Accepted(Run(s, rest), token) ==>
                 ObjectStays(s, Run(s, rest), ObjectOf(s.tokens[token]))
  {
    SerialIsInOrder(Initial(now), steps);
    HandedOutTokenKeepsObject(now, steps, token);
  }
}
