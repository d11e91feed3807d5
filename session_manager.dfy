/** The in-memory session store of the stateful backend: a dictionary from
    session id to the conversation state of that session. */
module SessionManager {
  import opened Wrappers
  import opened Messages

  /** The state kept per session. */
  datatype SessionState = SessionState(messages: seq<Message>, revealedSymptoms: seq<string>, conversationEnd: bool)

  /** The state a new session starts with. */
  function EmptySession(): (s: SessionState)
    ensures s.messages == [] && s.revealedSymptoms == [] && !s.conversationEnd
  {
    SessionState([], [], false)
  }

  /** `dict.get`: the entry stored under `id`, or `None`. */
  function Lookup(sessions: map<string, SessionState>, id: string): (r: Option<SessionState>)
    ensures r.Some? <==> id in sessions
    ensures r.Some? ==> r.value == sessions[id]
  {
    if id in sessions then Some(sessions[id]) else None
  }

  /** The store after `create_session` inserts a new entry under `id`. */
  function Created(sessions: map<string, SessionState>, id: string): map<string, SessionState>
  {
    sessions[id := EmptySession()]
  }

  /** The store after `reset_session(id)`: the entry is deleted when it is
      there. */
  function Removed(sessions: map<string, SessionState>, id: string): map<string, SessionState>
  {
    if id in sessions then sessions - {id} else sessions
  }

  /** No stored session has ended. */
  predicate NoneEnded(sessions: map<string, SessionState>)
  {
    forall id :: id in sessions ==> !sessions[id].conversationEnd
  }

  /** The module-level `_sessions` dictionary and its three operations. The
      random uuid is the caller's `freshId`, which must not name a session
      already stored. */
  class SessionStore {
    var sessions: map<string, SessionState>

    constructor()
      ensures sessions == map[]
    {
      sessions := map[];
    }

    method CreateSession(freshId: string) returns (id: string)
      requires freshId !in sessions
      modifies this
      ensures id == freshId
      ensures sessions == Created(old(sessions), freshId)
    {
      id := freshId;
      sessions := sessions[id := SessionState([], [], false)];
    }

    method GetSession(id: string) returns (r: Option<SessionState>)
      ensures r == Lookup(sessions, id)
    {
      if id in sessions {
        r := Some(sessions[id]);
      } else {
        r := None;
      }
    }

    method ResetSession(id: string)
      modifies this
      ensures sessions == Removed(old(sessions), id)
    {
      if id in sessions {
        sessions := sessions - {id};
      }
    }
  }

  /** A created session is found, empty and not ended; its id was new, and
      every other entry is as before. */
  lemma CreateThenLookup(sessions: map<string, SessionState>, id: string, other: string)
    requires id !in sessions
    ensures Lookup(Created(sessions, id), id) == Some(EmptySession())
    ensures |Created(sessions, id).Keys| == |sessions.Keys| + 1
    ensures other != id ==> Lookup(Created(sessions, id), other) == Lookup(sessions, other)
  {
    assert Created(sessions, id).Keys == sessions.Keys + {id};
  }

  /** After a reset the id is not found, every other entry is as before, and
      resetting an unknown id changes nothing. */
  lemma ResetThenLookup(sessions: map<string, SessionState>, id: string, other: string)
    ensures Lookup(Removed(sessions, id), id) == None
    ensures other != id ==> Lookup(Removed(sessions, id), other) == Lookup(sessions, other)
    ensures id !in sessions ==> Removed(sessions, id) == sessions
    ensures Removed(sessions, id).Keys == sessions.Keys - {id}
  {
  }

  /** Creating and resetting keep every stored session un-ended when the
      store had none ended. */
  lemma NoneEndedKept(sessions: map<string, SessionState>, id: string)
    requires NoneEnded(sessions)
    ensures NoneEnded(Created(sessions, id))
    ensures NoneEnded(Removed(sessions, id))
  {
  }
}
