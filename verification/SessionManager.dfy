/** Admin sessions: internal/admin/session.go. */
module SessionManager {
  import opened Wrappers
  import opened Expiry

  /** Where a session was opened from, and when. */
  datatype Login = Login(ip: string, createdAt: int)

  class SessionManager {
    var sessions: map<string, Entry<Login>>

    constructor ()
      ensures sessions == map[]
    {
      sessions := map[];
    }

    method Add(sessionID: string, session: Entry<Login>)
      modifies this
      ensures forall now :: sessions == After(old(sessions), Event(now, Put(sessionID, session)))
      ensures sessions == old(sessions)[sessionID := session]
    {
      sessions := sessions[sessionID := session];
    }

    method Validate(sessionID: string, now: int) returns (valid: bool)
      ensures valid <==> Check(sessions, sessionID, now).Some?
      ensures valid <==> sessionID in sessions && now <= sessions[sessionID].expiresAt
    {
      if sessionID !in sessions {
        return false;
      }
      if now > sessions[sessionID].expiresAt {
        return false;
      }
      return true;
    }

    method Delete(sessionID: string)
      modifies this
      ensures sessions == Without(old(sessions), sessionID)
    {
      sessions := Without(sessions, sessionID);
    }

    /** One tick of cleanupExpiredSessions. */
    method CleanupExpiredSessions(now: int)
      modifies this
      ensures sessions == After(old(sessions), Event(now, Cleanup))
      ensures forall k :: k in sessions <==> k in old(sessions) && now <= old(sessions)[k].expiresAt
      ensures forall k :: k in sessions ==> sessions[k] == old(sessions)[k]
      ensures forall k :: Check(sessions, k, now) == Check(old(sessions), k, now)
    {
      ghost var sessions0 := sessions;
      var todo := sessions.Keys;
      while todo != {}
        invariant todo <= sessions0.Keys
        invariant sessions == map k | k in sessions0 && (k in todo || !Expired(sessions0[k], now)) :: sessions0[k]
        decreases todo
      {
        var id :| id in todo;
        todo := todo - {id};
        if now > sessions[id].expiresAt {
          sessions := Without(sessions, id);
        }
      }
    }
  }
}
