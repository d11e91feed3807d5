/** The second copy of the session store, kept under the backend directory.
    It stores the same per-session state and deletes with `dict.pop`. */
module BackendSessionManager {
  import opened Wrappers
  import opened SessionManager

  /** The store after `_sessions.pop(id, None)`. */
  function Popped(sessions: map<string, SessionState>, id: string): map<string, SessionState>
  {
    sessions - {id}
  }

  class BackendSessionStore {
    var sessions: map<string, SessionState>

    constructor()
      ensures sessions == map[]
    {
      sessions := map[];
    }

    method CreateSession(freshId: string) returns (id: string)
      requires freshId !in sessions
      modifies this
      ensures id == freshId
      ensures sessions == Created(old(sessions), freshId)
    {
      id := freshId;
      sessions := sessions[id := SessionState([], [], false)];
    }

    method GetSession(id: string) returns (r: Option<SessionState>)
      ensures r.Some? <==> id in sessions
      ensures r.Some? ==> r.value == sessions[id]
    {
      if id in sessions {
        r := Some(sessions[id]);
      } else {
        r := None;
      }
    }

    method ResetSession(id: string)
      modifies this
      ensures sessions == Popped(old(sessions), id)
    {
      sessions := sessions - {id};
    }
  }

  /** Popping removes the id when present, does nothing otherwise, and
      leaves every other entry as it was. */
  lemma PopRemovesOnlyId(sessions: map<string, SessionState>, id: string, other: string)
    ensures id !in Popped(sessions, id)
    ensures id !in sessions ==> Popped(sessions, id) == sessions
    ensures other != id ==> (other in Popped(sessions, id) <==> other in sessions)
    ensures other != id && other in sessions ==> Popped(sessions, id)[other] == sessions[other]
  {
  }

  /** Resetting twice is resetting once. */
  lemma PopIdempotent(sessions: map<string, SessionState>, id: string)
    ensures Popped(Popped(sessions, id), id) == Popped(sessions, id)
  {
  }

  /** The pop-based reset and the check-then-delete reset of the other copy
      leave the same store. */
  lemma PopMatchesRemoved(sessions: map<string, SessionState>, id: string)
    ensures Popped(sessions, id) == Removed(sessions, id)
  {
  }
}
