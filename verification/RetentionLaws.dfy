/** What single steps of the retention protocol do, read off the states before and after. */
module RetentionLaws {
  import opened Wrappers
  import opened ObjectStore
  import opened RetentionProtocol

  /** How long a token is accepted: until 24 hours after the time its request read, to the nanosecond. */
  predicate LastsADay(t: State, token: Token, id: ObjectID, at: int)
  {
    && token in t.tokens && ObjectOf(t.tokens[token]) == id
    && t.tokens[token].expiresAt == at + 86_400_000_000_000
    && (Accepted(t, token) <==> t.now <= at + 86_400_000_000_000)
  }

  lemma TokensLastADay(s: State, r: nat, id: ObjectID, token: Token, at: int, written: bool)
    ensures Enabled(s, IssueToken(r, token, at)) ==>
              LastsADay(Apply(s, IssueToken(r, token, at)), token, s.checked[r], at)
    ensures Enabled(s, IssueLink(id, token, at)) ==> LastsADay(Apply(s, IssueLink(id, token, at)), token, id, at)
    ensures Enabled(s, GenerateDownloadToken(id, token, written)) && id in s.rows && s.rows[id].status == Completed ==>
              LastsADay(Apply(s, GenerateDownloadToken(id, token, written)), token, id, s.now)
  {
  }

  /** A request for an object that is missing or not completed gets no token, and changes nothing. */
  lemma OnlyCompletedGetTokens(s: State, r: nat, id: ObjectID, token: Token, written: bool)
    requires Enabled(s, ReadStatus(r, id)) && Enabled(s, GenerateDownloadToken(id, token, written))
    ensures r in Apply(s, ReadStatus(r, id)).checked <==> id in s.rows && s.rows[id].status == Completed
    ensures !(id in s.rows && s.rows[id].status == Completed) ==>
              Apply(s, ReadStatus(r, id)) == s == Apply(s, GenerateDownloadToken(id, token, written))
  {
  }

  /** A written request sets the object's expiration to its token's, of that object only. */
  lemma WrittenExpiration(s: State, token: Token)
    requires token in s.owed
    ensures var t := Apply(s, WriteExpiration(token, true));
            var id := ObjectOf(s.owed[token]);
            && token !in t.owed && t.rows.Keys == s.rows.Keys && t.files == s.files
            && (id in s.rows ==> t.rows[id] == s.rows[id].(expiresAt := Some(s.owed[token].expiresAt)))
            && (forall other :: other in s.rows && other != id ==> t.rows[other] == s.rows[other])
    ensures Apply(s, WriteExpiration(token, false)).rows == s.rows
  {
  }

  /** A revoked token is refused at once, and any other is as it was. */
  lemma RevokedIsRefused(s: State, token: Token, other: Token)
    ensures !Accepted(Apply(s, RevokeToken(token)), token)
    ensures other != token ==> (Accepted(Apply(s, RevokeToken(token)), other) <==> Accepted(s, other))
  {
  }

  /** The cleanup of tokens takes exactly those that have expired. */
  lemma ExpiredTokensGo(s: State, token: Token)
    ensures token in Apply(s, CleanupTokens).tokens <==> token in s.tokens && s.now <= s.tokens[token].expiresAt
    ensures Accepted(Apply(s, CleanupTokens), token) <==> Accepted(s, token)
  {
  }

  /** A deleted object has neither row nor file, and every other object has what it had. */
  lemma DeletedIsGone(s: State, id: ObjectID, other: ObjectID)
    requires RowsOk(s.rows) && id in s.rows && (other in s.rows ==> other != id)
    ensures var t := Apply(s, DeleteObject(id));
            && id !in t.rows && StoragePath(id) !in t.files
            && (other in s.rows ==> other in t.rows && t.rows[other] == s.rows[other])
            && (other in s.rows && StoragePath(other) in s.files ==>
                  StoragePath(other) in t.files && t.files[StoragePath(other)] == s.files[StoragePath(other)])
  {
    if other in s.rows {
      PathsAreApart(id, other, "", "");
    }
  }

  /** A late failure changes the status of that row, whatever it was, and nothing else of it. */
  lemma LateFailureFails(s: State, id: ObjectID)
    ensures var t := Apply(s, LateFailure(id));
            && t.rows.Keys == s.rows.Keys
            && (id in s.rows ==> t.rows[id] == s.rows[id].(status := Failed))
            && (forall other :: other in s.rows && other != id ==> t.rows[other] == s.rows[other])
  {
  }

  /** A cleanup finds exactly the objects whose expiry lies before the time it read. */
  lemma QueryFinds(s: State, g: nat, at: int, id: ObjectID)
    requires Enabled(s, QueryExpired(g, at))
    ensures NextFor(Apply(s, QueryExpired(g, at)), g, id)
            <==> id in s.rows && s.rows[id].expiresAt.Some? && s.rows[id].expiresAt.value < at
  {
  }

  /** A new object is pending, without content and expiration. */
  lemma NewObjectIsPending(s: State, id: ObjectID, fileSize: int, sha256: string)
    requires Enabled(s, InitUpload(id, fileSize, sha256))
    ensures var t := Apply(s, InitUpload(id, fileSize, sha256));
            && id in t.rows && t.rows[id] == Row(fileSize, sha256, Pending, StoragePath(id), None, None)
            && t.files == s.files
  {
  }
}
