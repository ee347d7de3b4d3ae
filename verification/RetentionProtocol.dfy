/**
 Tokens and garbage collection as a step machine over one database and disk (internal/objects/api.go, token.go,
 storage.go, internal/mcp/tools.go). A token request is one step, or is split at its three database statements; a
 cleanup is split into its query and, for each object found, the removal of the file and of the row. So any number of
 requests and cleanups overlap with each other and with everything else.
 */
module RetentionProtocol {
  import opened Wrappers
  import opened ObjectStore
  import opened ObjectStorage
  import Expiry
  import TokenManager

  type Token = string
  type TokenEntry = Expiry.Entry<TokenManager.Grant>
  type Tokens = map<Token, TokenEntry>

  /** 24 hours in nanoseconds, for every token the server issues. */
  const TOKEN_LIFETIME: int := 86_400_000_000_000

  /** A running cleanup: ids found and not come to yet, and the one whose file has been dealt with and not its row. */
  datatype Sweep = Sweep(found: set<ObjectID>, clearing: Option<ObjectID>)

  /**
   `checked` are the requests that have read their object as completed; `owed` those that have issued their token and
   not come to their expiration write, by token. The last three fields are history: all object ids ever made, those of
   which a cleanup took file or row, and tokens that were accepted when or after one took their object.
   */
  datatype State = State(now: int, rows: Rows, files: Files, tokens: Tokens,
                         checked: map<nat, ObjectID>, owed: Tokens, sweeps: map<nat, Sweep>,
                         issued: set<ObjectID>, collected: set<ObjectID>, lost: set<Token>)

  datatype Step =
    | Tick(dt: nat)
    | InitUpload(id: ObjectID, fileSize: int, sha256: string)
    | Upload(id: ObjectID, bytes: Bytes, clean: bool, digest: Digest)
    | LateFailure(id: ObjectID)
    | DeleteObject(id: ObjectID)
    | RevokeToken(token: Token)
    | CleanupTokens
      // handleGetDownloadLink's token, of which it writes no expiration; `at` is when it read the clock
    | IssueLink(id: ObjectID, token: Token, at: int)
      // HandleGenerateDownloadToken, whole; `written` is whether writing the expiration succeeds
    | GenerateDownloadToken(id: ObjectID, token: Token, written: bool)
      // and split at its statements
    | ReadStatus(r: nat, id: ObjectID)
    | IssueToken(r: nat, token: Token, at: int)
    | WriteExpiration(token: Token, written: bool)
      // CleanupExpiredObjects; `ok` is whether the operation succeeds
    | QueryExpired(g: nat, at: int)
    | SkipObject(g: nat, id: ObjectID)
    | CollectFile(g: nat, id: ObjectID, ok: bool)
    | CollectRow(g: nat, ok: bool)

  predicate Unused(s: State, token: Token) {
    token !in s.tokens && token !in s.owed
  }

  /** A cleanup has found the object and has not come to it. */
  predicate NextFor(s: State, g: nat, id: ObjectID) {
    g in s.sweeps && id in s.sweeps[g].found && s.sweeps[g].clearing.None?
  }

  predicate Enabled(s: State, step: Step) {
    match step
    case InitUpload(id, _, _) => IsID(id) && id !in s.issued
    case IssueLink(id, token, at) => Unused(s, token) && at <= s.now && (id == "" || id in s.issued)
    case GenerateDownloadToken(_, token, _) => Unused(s, token)
    case ReadStatus(r, _) => r !in s.checked
    case IssueToken(r, token, at) => r in s.checked && Unused(s, token) && at <= s.now
    case WriteExpiration(token, _) => token in s.owed
    case QueryExpired(g, at) => g !in s.sweeps && at <= s.now
    case SkipObject(g, id) => NextFor(s, g, id)
    case CollectFile(g, id, _) => NextFor(s, g, id)
    case CollectRow(g, _) => g in s.sweeps && s.sweeps[g].clearing.Some?
    case _ => true
  }

  function Grant(id: ObjectID, at: int): TokenEntry {
    Expiry.Entry(TokenManager.Grant(id, at), at + TOKEN_LIFETIME)
  }

  function Expire(rows: Rows, id: ObjectID, at: int): Rows {
    if id in rows then rows[id := rows[id].(expiresAt := Some(at))] else rows
  }

  predicate Complete(rows: Rows, id: ObjectID) {
    id in rows && rows[id].status == Completed
  }

  /** ValidateToken would accept the token now. */
  predicate Accepted(s: State, token: Token) {
    Expiry.Check(s.tokens, token, s.now).Some?
  }

  function ObjectOf(e: TokenEntry): ObjectID {
    e.value.objectID
  }

  /** A token issued for an object of which a cleanup has taken something has lost it at once. */
  function WithToken(s: State, id: ObjectID, token: Token, at: int): State {
    s.(tokens := s.tokens[token := Grant(id, at)],
       lost := if id in s.collected && s.now <= at + TOKEN_LIFETIME then s.lost + {token} else s.lost)
  }

  /** A whole request for a completed object. */
  function Generated(s: State, id: ObjectID, token: Token, written: bool): State {
    WithToken(BeforeGrant(s, id, written), id, token, s.now)
  }

  function BeforeGrant(s: State, id: ObjectID, written: bool): State {
    if written then s.(rows := Expire(s.rows, id, s.now + TOKEN_LIFETIME)) else s
  }

  /** Accepted tokens whose object loses its file or row at this moment. */
  function LostWith(s: State, id: ObjectID): set<Token> {
    set k | k in s.tokens && Accepted(s, k) && ObjectOf(s.tokens[k]) == id && id in s.rows
  }

  function WithLoss(s: State, id: ObjectID, ok: bool): State {
    if ok && id in s.rows then s.(collected := s.collected + {id}, lost := s.lost + LostWith(s, id)) else s
  }

  function Apply(s: State, step: Step): State
    requires Enabled(s, step)
  {
    match step
    case Tick(dt) => s.(now := s.now + dt)
    case InitUpload(id, fileSize, sha256) =>
      s.(rows := s.rows[id := NewRow(id, fileSize, sha256)], issued := s.issued + {id})
    case Upload(id, bytes, clean, digest) =>
      var after := AfterUpload(s.rows, s.files, id, bytes, clean, digest, s.now);
      s.(rows := after.rows, files := after.files)
    case LateFailure(id) => s.(rows := WithStatus(s.rows, id, Failed, s.now))
    case DeleteObject(id) =>
      if id in s.rows then s.(rows := Without(s.rows, id), files := Without(s.files, s.rows[id].storagePath)) else s
    case RevokeToken(token) => s.(tokens := Without(s.tokens, token))
    case CleanupTokens => s.(tokens := Expiry.Purge(s.tokens, s.now))
    case IssueLink(id, token, at) => WithToken(s, id, token, at)
    case GenerateDownloadToken(id, token, written) =>
      if Complete(s.rows, id) then Generated(s, id, token, written) else s
    case ReadStatus(r, id) => if Complete(s.rows, id) then s.(checked := s.checked[r := id]) else s
    case IssueToken(r, token, at) =>
      WithToken(s, s.checked[r], token, at)
        .(checked := Without(s.checked, r), owed := s.owed[token := Grant(s.checked[r], at)])
    case WriteExpiration(token, written) =>
      s.(owed := Without(s.owed, token),
         rows := if written then Expire(s.rows, ObjectOf(s.owed[token]), s.owed[token].expiresAt) else s.rows)
    case QueryExpired(g, at) => s.(sweeps := s.sweeps[g := Sweep(ExpiredIDs(s.rows, at), None)])
    case SkipObject(g, id) => s.(sweeps := s.sweeps[g := Sweep(s.sweeps[g].found - {id}, None)])
    case CollectFile(g, id, ok) =>
      WithLoss(s, id, ok).(files := if ok then Without(s.files, StoragePath(id)) else s.files,
                           sweeps := s.sweeps[g := Sweep(s.sweeps[g].found - {id}, Some(id))])
    case CollectRow(g, ok) =>
      var id := s.sweeps[g].clearing.value;
      WithLoss(s, id, ok).(rows := if ok then Without(s.rows, id) else s.rows,
                           sweeps := s.sweeps[g := Sweep(s.sweeps[g].found, None)])
  }

  function Initial(now: int): State {
    State(now, map[], map[], map[], map[], map[], map[], {}, {}, {})
  }

  predicate CanRun(s: State, steps: seq<Step>)
    decreases |steps|
  {
    steps == [] || (Enabled(s, steps[0]) && CanRun(Apply(s, steps[0]), steps[1..]))
  }

  function Run(s: State, steps: seq<Step>): State
    requires CanRun(s, steps)
    decreases |steps|
  {
    if steps == [] then s else Run(Apply(s, steps[0]), steps[1..])
  }

  lemma RunFirst(s: State, step: Step, rest: seq<Step>)
    requires Enabled(s, step) && CanRun(Apply(s, step), rest)
    ensures CanRun(s, [step] + rest) && Run(s, [step] + rest) == Run(Apply(s, step), rest)
  {
  }

  lemma {:induction false} RunsCompose(s: State, a: seq<Step>, b: seq<Step>)
    requires CanRun(s, a) && CanRun(Run(s, a), b)
    ensures CanRun(s, a + b) && Run(s, a + b) == Run(Run(s, a), b)
    decreases |a|
  {
    if a == [] {
      assert a + b == b;
    } else {
      assert (a + b)[1..] == a[1..] + b;
      RunsCompose(Apply(s, a[0]), a[1..], b);
    }
  }

  // ---------------------------------------------------------------- what is always so

  /** A running cleanup has found the object. */
  predicate Doomed(sweeps: map<nat, Sweep>, id: ObjectID) {
    exists g :: g in sweeps && (id in sweeps[g].found || sweeps[g].clearing == Some(id))
  }

  predicate EntryOk(s: State, e: TokenEntry) {
    e.expiresAt <= s.now + TOKEN_LIFETIME && (ObjectOf(e) == "" || ObjectOf(e) in s.issued)
  }

  /** Ids and lifetimes are as the handlers made them. */
  ghost predicate IdsOk(s: State) {
    && RowsOk(s.rows) && s.rows.Keys <= s.issued && s.collected <= s.issued
    && (forall id :: id in s.issued ==> IsID(id))
    && (forall k :: k in s.tokens ==> EntryOk(s, s.tokens[k]))
    && (forall k :: k in s.owed ==> EntryOk(s, s.owed[k]) && (k in s.tokens ==> s.tokens[k] == s.owed[k]))
    && (forall r :: r in s.checked ==> s.checked[r] in s.issued)
    && (forall id :: Doomed(s.sweeps, id) ==> id in s.issued)
  }

  /** What cleanups have found or taken has an expiration, and `lost` misses no accepted token. */
  ghost predicate SweepsOk(s: State) {
    && (forall id :: id in s.rows && (Doomed(s.sweeps, id) || id in s.collected) ==> s.rows[id].expiresAt.Some?)
    && (forall k :: Accepted(s, k) && ObjectOf(s.tokens[k]) in s.collected && ObjectOf(s.tokens[k]) in s.rows ==>
          k in s.lost)
  }

  ghost predicate Books(s: State) {
    IdsOk(s) && SweepsOk(s)
  }

  /** Rows change under their ids or go, or are new and without an expiration. */
  ghost predicate RowsMove(s: State, rows: Rows, issued: set<ObjectID>) {
    && RowsOk(rows) && rows.Keys <= issued && s.issued <= issued
    && (forall id :: id in issued && id !in s.issued ==> IsID(id))
    && (forall id :: id in rows && id in s.issued ==>
          id in s.rows && (s.rows[id].expiresAt.Some? ==> rows[id].expiresAt.Some?))
  }

  lemma RowsMoveKeepsBooks(s: State, rows: Rows, files: Files, issued: set<ObjectID>)
    requires Books(s) && RowsMove(s, rows, issued)
    ensures Books(s.(rows := rows, files := files, issued := issued))
  {
    var t := s.(rows := rows, files := files, issued := issued);
    assert forall k :: Accepted(t, k) <==> Accepted(s, k);
  }

  lemma InitKeepsBooks(s: State, id: ObjectID, fileSize: int, sha256: string)
    requires Books(s) && Enabled(s, InitUpload(id, fileSize, sha256))
    ensures Books(Apply(s, InitUpload(id, fileSize, sha256)))
  {
    RowsMoveKeepsBooks(s, s.rows[id := NewRow(id, fileSize, sha256)], s.files, s.issued + {id});
  }

  lemma UploadKeepsBooks(s: State, id: ObjectID, bytes: Bytes, clean: bool, digest: Digest)
    requires Books(s)
    ensures Books(Apply(s, Upload(id, bytes, clean, digest)))
  {
    var after := AfterUpload(s.rows, s.files, id, bytes, clean, digest, s.now);
    RowsMoveKeepsBooks(s, after.rows, after.files, s.issued);
  }

  lemma FailureKeepsBooks(s: State, id: ObjectID)
    requires Books(s)
    ensures Books(Apply(s, LateFailure(id)))
  {
    RowsMoveKeepsBooks(s, WithStatus(s.rows, id, Failed, s.now), s.files, s.issued);
  }

  lemma DeletionKeepsBooks(s: State, id: ObjectID)
    requires Books(s)
    ensures Books(Apply(s, DeleteObject(id)))
  {
    if id in s.rows {
      RowsMoveKeepsBooks(s, Without(s.rows, id), Without(s.files, s.rows[id].storagePath), s.issued);
    }
  }

  lemma ExpireKeepsBooks(s: State, id: ObjectID, at: int)
    requires Books(s)
    ensures Books(s.(rows := Expire(s.rows, id, at)))
  {
    RowsMoveKeepsBooks(s, Expire(s.rows, id, at), s.files, s.issued);
  }

  /** Tokens and requests go, and time passes. */
  lemma TokensMoveKeepsBooks(s: State, now: int, tokens: Tokens, checked: map<nat, ObjectID>, owed: Tokens)
    requires Books(s) && s.now <= now
    requires forall k :: k in tokens ==> k in s.tokens && tokens[k] == s.tokens[k]
    requires forall k :: k in owed ==> k in s.owed && owed[k] == s.owed[k]
    requires forall r :: r in checked ==> checked[r] in s.issued
    ensures Books(s.(now := now, tokens := tokens, checked := checked, owed := owed))
  {
    var t := s.(now := now, tokens := tokens, checked := checked, owed := owed);
    assert forall k :: Accepted(t, k) ==> Accepted(s, k);
  }

  lemma TokenStepKeepsBooks(s: State, step: Step)
    requires Books(s) && Enabled(s, step)
    requires step.Tick? || step.RevokeToken? || step.CleanupTokens? || step.ReadStatus?
    ensures Books(Apply(s, step))
  {
    var t := Apply(s, step);
    TokensMoveKeepsBooks(s, t.now, t.tokens, t.checked, t.owed);
  }

  lemma WriteKeepsBooks(s: State, token: Token, written: bool)
    requires Books(s) && token in s.owed
    ensures Books(Apply(s, WriteExpiration(token, written)))
  {
    var u := s.(owed := Without(s.owed, token));
    TokensMoveKeepsBooks(s, s.now, s.tokens, s.checked, u.owed);
    ExpireKeepsBooks(u, ObjectOf(s.owed[token]), s.owed[token].expiresAt);
  }

  lemma TokenKeepsIds(s: State, id: ObjectID, token: Token, at: int)
    requires IdsOk(s) && Unused(s, token) && at <= s.now && (id == "" || id in s.issued)
    ensures IdsOk(WithToken(s, id, token, at))
    ensures IdsOk(WithToken(s, id, token, at).(owed := s.owed[token := Grant(id, at)]))
  {
  }

  lemma TokenKeepsSweeps(s: State, id: ObjectID, token: Token, at: int, owed: Tokens)
    requires SweepsOk(s) && Unused(s, token)
    ensures SweepsOk(WithToken(s, id, token, at).(owed := owed))
  {
    var t := WithToken(s, id, token, at);
    assert forall k :: k != token ==> (Accepted(t, k) <==> Accepted(s, k));
  }

  lemma TokenKeepsBooks(s: State, id: ObjectID, token: Token, at: int)
    requires Books(s) && Unused(s, token) && at <= s.now && (id == "" || id in s.issued)
    ensures Books(WithToken(s, id, token, at))
    ensures Books(WithToken(s, id, token, at).(owed := s.owed[token := Grant(id, at)]))
  {
    TokenKeepsIds(s, id, token, at);
    TokenKeepsSweeps(s, id, token, at, s.owed);
    TokenKeepsSweeps(s, id, token, at, s.owed[token := Grant(id, at)]);
    assert WithToken(s, id, token, at).(owed := s.owed) == WithToken(s, id, token, at);
  }

  lemma GenerateKeepsBooks(s: State, id: ObjectID, token: Token, written: bool)
    requires Books(s) && Unused(s, token) && Complete(s.rows, id)
    ensures Books(Generated(s, id, token, written))
  {
    var u := BeforeGrant(s, id, written);
    assert id in s.issued && Unused(u, token) && u.now == s.now && u.issued == s.issued;
    if written {
      ExpireKeepsBooks(s, id, s.now + TOKEN_LIFETIME);
    }
    TokenKeepsBooks(u, id, token, s.now);
  }

  lemma IssueKeepsBooks(s: State, r: nat, token: Token, at: int)
    requires Books(s) && Enabled(s, IssueToken(r, token, at))
    ensures Books(Apply(s, IssueToken(r, token, at)))
  {
    var u := s.(checked := Without(s.checked, r));
    TokensMoveKeepsBooks(s, s.now, s.tokens, u.checked, s.owed);
    TokenKeepsBooks(u, s.checked[r], token, at);
  }

  lemma FoundIsDoomed(sweeps: map<nat, Sweep>, g: nat, found: set<ObjectID>, id: ObjectID)
    requires g !in sweeps
    ensures Doomed(sweeps[g := Sweep(found, None)], id) <==> Doomed(sweeps, id) || id in found
  {
    var t := sweeps[g := Sweep(found, None)];
    assert t[g].found == found;
    assert forall h :: h in sweeps ==> h in t && t[h] == sweeps[h];
  }

  lemma QueryKeepsBooks(s: State, g: nat, at: int)
    requires Books(s) && Enabled(s, QueryExpired(g, at))
    ensures Books(Apply(s, QueryExpired(g, at)))
  {
    var t := Apply(s, QueryExpired(g, at));
    forall id ensures Doomed(t.sweeps, id) <==> Doomed(s.sweeps, id) || id in ExpiredIDs(s.rows, at) {
      FoundIsDoomed(s.sweeps, g, ExpiredIDs(s.rows, at), id);
    }
    assert forall k :: Accepted(t, k) <==> Accepted(s, k);
  }

  /** A cleanup that goes on finds nothing new. */
  lemma SweepMoveKeepsBooks(s: State, g: nat, sweep: Sweep)
    requires Books(s) && g in s.sweeps && sweep.found <= s.sweeps[g].found
    requires sweep.clearing.Some? ==> sweep.clearing.value in s.sweeps[g].found
    ensures Books(s.(sweeps := s.sweeps[g := sweep]))
    ensures forall id :: Doomed(s.sweeps[g := sweep], id) ==> Doomed(s.sweeps, id)
  {
    var t := s.(sweeps := s.sweeps[g := sweep]);
    forall id | Doomed(t.sweeps, id) ensures Doomed(s.sweeps, id) {
      var h :| h in t.sweeps && (id in t.sweeps[h].found || t.sweeps[h].clearing == Some(id));
      assert h in s.sweeps;
    }
    assert forall k :: Accepted(t, k) <==> Accepted(s, k);
  }

  /** The cleanup takes file or row of an object that it had found. */
  lemma LossKeepsBooks(s: State, id: ObjectID, ok: bool)
    requires Books(s) && Doomed(s.sweeps, id)
    ensures Books(WithLoss(s, id, ok))
  {
    var t := WithLoss(s, id, ok);
    assert forall k :: Accepted(t, k) <==> Accepted(s, k);
  }

  lemma FileKeepsBooks(s: State, g: nat, id: ObjectID, ok: bool)
    requires Books(s) && Enabled(s, CollectFile(g, id, ok))
    ensures Books(Apply(s, CollectFile(g, id, ok)))
  {
    var u := WithLoss(s, id, ok);
    LossKeepsBooks(s, id, ok);
    var v := u.(files := if ok then Without(s.files, StoragePath(id)) else s.files);
    RowsMoveKeepsBooks(u, u.rows, v.files, u.issued);
    SweepMoveKeepsBooks(v, g, Sweep(s.sweeps[g].found - {id}, Some(id)));
  }

  lemma RowKeepsBooks(s: State, g: nat, ok: bool)
    requires Books(s) && Enabled(s, CollectRow(g, ok))
    ensures Books(Apply(s, CollectRow(g, ok)))
  {
    var id := s.sweeps[g].clearing.value;
    var u := WithLoss(s, id, ok);
    LossKeepsBooks(s, id, ok);
    var v := u.(rows := if ok then Without(s.rows, id) else s.rows);
    RowsMoveKeepsBooks(u, v.rows, u.files, u.issued);
    SweepMoveKeepsBooks(v, g, Sweep(s.sweeps[g].found, None));
  }

  lemma StepKeepsBooks(s: State, step: Step)
    requires Books(s) && Enabled(s, step)
    ensures Books(Apply(s, step))
  {
    match step
    case InitUpload(id, fileSize, sha256) => InitKeepsBooks(s, id, fileSize, sha256);
    case Upload(id, bytes, clean, digest) => UploadKeepsBooks(s, id, bytes, clean, digest);
    case LateFailure(id) => FailureKeepsBooks(s, id);
    case DeleteObject(id) => DeletionKeepsBooks(s, id);
    case IssueLink(id, token, at) => TokenKeepsBooks(s, id, token, at);
    case GenerateDownloadToken(id, token, written) =>
      if Complete(s.rows, id) { GenerateKeepsBooks(s, id, token, written); }
    case IssueToken(r, token, at) => IssueKeepsBooks(s, r, token, at);
    case WriteExpiration(token, written) => WriteKeepsBooks(s, token, written);
    case QueryExpired(g, at) => QueryKeepsBooks(s, g, at);
    case SkipObject(g, id) => SweepMoveKeepsBooks(s, g, Sweep(s.sweeps[g].found - {id}, None));
    case CollectFile(g, id, ok) => FileKeepsBooks(s, g, id, ok);
    case CollectRow(g, ok) => RowKeepsBooks(s, g, ok);
    case _ => TokenStepKeepsBooks(s, step);
  }

  lemma {:induction false} RunKeepsBooks(s: State, steps: seq<Step>)
    requires Books(s) && CanRun(s, steps)
    ensures Books(Run(s, steps))
    decreases |steps|
  {
    if steps != [] {
      StepKeepsBooks(s, steps[0]);
      RunKeepsBooks(Apply(s, steps[0]), steps[1..]);
    }
  }
}
