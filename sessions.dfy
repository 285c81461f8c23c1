/**
 * backend/storage/session_manager.py: a registry from session id to its record. Ids are
 * wall-clock seconds supplied by the caller; creating an existing id overwrites its record.
 */
module Sessions {

  /** A session id: the decimal text of `int(time.time())` at creation. */
  type SessionId = string

  /** The record stored per session. */
  datatype SessionRecord = SessionRecord(mode: string, videoPath: string, active: bool)

  /** The registry after `stop_session(id)`: only that id's record is marked inactive. */
  function Stopped(m: map<SessionId, SessionRecord>, id: SessionId): (r: map<SessionId, SessionRecord>)
    ensures r.Keys == m.Keys
    ensures forall k :: k in m && k != id ==> r[k] == m[k]
    ensures id in m ==> r[id] == m[id].(active := false)
  {
    if id in m then m[id := m[id].(active := false)] else m
  }

  /** Stopping twice is stopping once. */
  lemma StoppedIdempotent(m: map<SessionId, SessionRecord>, id: SessionId)
    ensures Stopped(Stopped(m, id), id) == Stopped(m, id)
  {
  }

  /** Stopping an unknown id changes nothing. */
  lemma StoppedUnknownIsNoOp(m: map<SessionId, SessionRecord>, id: SessionId)
    requires id !in m
    ensures Stopped(m, id) == m
  {
  }

  /** `SessionManager`: its `sessions` dictionary. */
  class SessionManager {
    var sessions: map<SessionId, SessionRecord>

    /** `__init__`: no sessions. */
    constructor ()
      ensures sessions == map[]
    {
      sessions := map[];
    }

    /**
     * `create_session`: store an active record under the clock's id and return it; an existing
     * record under the same id is overwritten, and no other entry changes.
     */
    method CreateSession(mode: string, videoPath: string, now: SessionId) returns (id: SessionId)
      modifies this
      ensures id == now
      ensures sessions == old(sessions)[id := SessionRecord(mode, videoPath, true)]
      ensures sessions.Keys == old(sessions).Keys + {id}
    {
      id := now;
      sessions := sessions[id := SessionRecord(mode, videoPath, true)];
    }

    /** `stop_session`: mark that session inactive if present; entries are never removed. */
    method StopSession(id: SessionId)
      modifies this
      ensures sessions == Stopped(old(sessions), id)
      ensures sessions.Keys == old(sessions).Keys
    {
      if id in sessions {
        sessions := sessions[id := sessions[id].(active := false)];
      }
    }
  }
}
