/** Download tokens: internal/objects/token.go. */
module TokenManager {
  import opened Wrappers
  import opened Expiry

  /** What a token stands for. */
  datatype Grant = Grant(objectID: string, createdAt: int)

  datatype TokenError = RandomFailed | InsertFailed | InvalidToken | TokenExpired | TokenNotFound

  class TokenManager {
    var tokens: map<string, Entry<Grant>>

    constructor ()
      ensures tokens == map[]
    {
      tokens := map[];
    }

    /** `drawn` is the random text, None when the random source fails; `executed` is whether the insert does not. */
    method GenerateToken(objectID: string, expiresIn: int, drawn: Option<string>, now: int, executed: bool)
      returns (r: Result<Entry<Grant>, TokenError>)
      modifies this
      ensures r.Ok? <==> drawn.Some? && drawn.value !in old(tokens) && executed
      ensures r.Err? ==> tokens == old(tokens) && r.error == if drawn.None? then RandomFailed else InsertFailed
      ensures r.Ok? ==>
                tokens == After(old(tokens),
                                Event(now, Insert(drawn.value, Entry(Grant(objectID, now), now + expiresIn))))
      ensures r.Ok? ==> r.value.expiresAt == now + expiresIn && r.value.value.objectID == objectID
                        && (0 <= expiresIn ==> Check(tokens, drawn.value, now) == Some(r.value))
    {
      if drawn.None? {
        return Err(RandomFailed);
      }
      var entry := Entry(Grant(objectID, now), now + expiresIn);
      if drawn.value in tokens || !executed {
        return Err(InsertFailed);
      }
      tokens := tokens[drawn.value := entry];
      return Ok(entry);
    }

    method ValidateToken(token: string, now: int) returns (r: Result<Entry<Grant>, TokenError>)
      ensures r.Ok? <==> Check(tokens, token, now).Some?
      ensures r.Ok? ==> Some(r.value) == Check(tokens, token, now)
      ensures r == Err(InvalidToken) <==> token !in tokens
      ensures r == Err(TokenExpired) <==> token in tokens && tokens[token].expiresAt < now
      ensures token in tokens && now <= tokens[token].expiresAt ==> r == Ok(tokens[token])
    {
      if token !in tokens {
        return Err(InvalidToken);
      }
      if now > tokens[token].expiresAt {
        return Err(TokenExpired);
      }
      return Ok(tokens[token]);
    }

    method CleanupExpiredTokens(now: int)
      modifies this
      ensures tokens == After(old(tokens), Event(now, Cleanup))
      ensures forall k :: k in tokens <==> k in old(tokens) && now <= old(tokens)[k].expiresAt
      ensures forall k :: k in tokens ==> tokens[k] == old(tokens)[k]
      ensures forall k :: Check(tokens, k, now) == Check(old(tokens), k, now)
    {
      tokens := map k | k in tokens && !(tokens[k].expiresAt < now) :: tokens[k];
    }

    method RevokeToken(token: string) returns (found: bool)
      modifies this
      ensures found <==> token in old(tokens)
      ensures tokens == Without(old(tokens), token)
    {
      found := token in tokens;
      tokens := Without(tokens, token);
    }
  }
}
