/** The stateful backend: the `/chat` and `/treatment` endpoints keep each
    consultation in the session store, run one node per request and write
    the node's output back into the stored session. */
module BackendApp {
  import opened Wrappers
  import opened Text
  import opened Messages
  import opened SessionManager
  import PG = PatientGraph
  import TG = TreatmentGraph

  datatype ChatRequest = ChatRequest(query: string, sessionId: Option<string>)
  datatype ChatResponse = ChatResponse(sessionId: string, reply: string, conversationEnd: bool)

  datatype TreatmentRequest = TreatmentRequest(prescription: string, sessionId: Option<string>)
  /** `sessionId` is `None` on the two replies that carry no session id. */
  datatype TreatmentResponse = TreatmentResponse(sessionId: Option<string>, patientReply: string, conversationEnd: bool)

  const ChatCompleted: string := "[Conversation already completed politely.]"
  const NoActiveSession: string := "No active session found."
  const SessionExpired: string := "Session expired."
  const TreatmentCompleted: string := "[Consultation already completed politely.]"

  /** What one request does: the store afterwards, the response, and the
      completion call made (`None` when the request is answered without one). */
  datatype ChatOutcome = ChatOutcome(sessions: map<string, SessionState>, response: ChatResponse, call: Option<ProviderCall>)
  datatype TreatmentOutcome = TreatmentOutcome(sessions: map<string, SessionState>, response: TreatmentResponse, call: Option<ProviderCall>)

  /** `not session_id` in Python: absent or the empty string. */
  predicate Falsy(sessionId: Option<string>)
  {
    sessionId.None? || sessionId.value == ""
  }

  /** The session a chat request is served from: the stored one it names,
      or a new one under `freshId` when it names none or an unknown one. */
  predicate UsesFreshSession(sessions: map<string, SessionState>, req: ChatRequest)
  {
    Falsy(req.sessionId) || req.sessionId.value !in sessions
  }

  /** A chat request served from the session `id` of `store`: an ended
      session gets the canned reply; otherwise the query is appended, the
      patient node runs with the stored revealed symptoms, and its output
      overwrites the session. */
  function Serve(store: map<string, SessionState>, id: string, query: string, gen: Generation): ChatOutcome
    requires id in store
  {
    var state := store[id];
    if state.conversationEnd then
      ChatOutcome(store, ChatResponse(id, ChatCompleted, true), None)
    else
      var messages := state.messages + [Human(query)];
      var out := PG.Transition(PG.PatientState(messages, state.revealedSymptoms, false), gen);
      ChatOutcome(
        store[id := SessionState(out.messages, out.revealedSymptoms, out.conversationEnd)],
        ChatResponse(id, LastContent(out.messages), out.conversationEnd),
        Some(ProviderCall(PatientPersona(false), ProviderHistory(messages))))
  }

  /** The reference behaviour of `chat`: the request is served from the
      session it names, or from a new one under `freshId`. */
  function ChatStep(sessions: map<string, SessionState>, req: ChatRequest, freshId: string, gen: Generation): ChatOutcome
  {
    var isNew := UsesFreshSession(sessions, req);
    var id := if isNew then freshId else req.sessionId.value;
    var store := if isNew then Created(sessions, freshId) else sessions;
    Serve(store, id, req.query, gen)
  }

  /** The reference behaviour of `treatment`. The node always starts from
      `clarification_used = false`; an ended turn deletes the session. */
  function TreatmentStep(sessions: map<string, SessionState>, req: TreatmentRequest, gen: Generation): TreatmentOutcome
  {
    if Falsy(req.sessionId) then
      TreatmentOutcome(sessions, TreatmentResponse(None, NoActiveSession, true), None)
    else if req.sessionId.value !in sessions then
      TreatmentOutcome(sessions, TreatmentResponse(None, SessionExpired, true), None)
    else
      var id := req.sessionId.value;
      var state := sessions[id];
      if state.conversationEnd then
        TreatmentOutcome(sessions, TreatmentResponse(Some(id), TreatmentCompleted, true), None)
      else
        var messages := state.messages + [Human(req.prescription)];
        var out := TG.Transition(TG.TreatmentState(messages, false, false), gen);
        var store :=
          if out.conversationEnd then Removed(sessions, id)
          else sessions[id := SessionState(out.messages, state.revealedSymptoms, false)];
        TreatmentOutcome(
          store,
          TreatmentResponse(Some(id), LastContent(out.messages), out.conversationEnd),
          Some(ProviderCall(TG.Prompt(false), ProviderHistory(messages))))
  }

  /** The session a chat request is served from, created when the request
      names none or an unknown one. */
  method FetchOrCreate(store: SessionStore, req: ChatRequest, freshId: string) returns (sessionId: string, st: SessionState)
    requires freshId !in store.sessions
    modifies store
    ensures sessionId == if UsesFreshSession(old(store.sessions), req) then freshId else req.sessionId.value
    ensures store.sessions == if UsesFreshSession(old(store.sessions), req) then Created(old(store.sessions), freshId) else old(store.sessions)
    ensures sessionId in store.sessions && st == store.sessions[sessionId]
  {
    var state: Option<SessionState>;
    if req.sessionId.None? || req.sessionId.value == "" {
      sessionId := store.CreateSession(freshId);
      state := store.GetSession(sessionId);
    } else {
      sessionId := req.sessionId.value;
      state := store.GetSession(sessionId);
      if state.None? {
        sessionId := store.CreateSession(freshId);
        state := store.GetSession(sessionId);
      }
    }
    st := state.value;
  }

  /** `ChatStep` once the session is fetched or created: `store` and `id`
      are the store and the session it is served from. */
  lemma ChatStepServes(sessions: map<string, SessionState>, req: ChatRequest, freshId: string, gen: Generation, id: string, store: map<string, SessionState>)
    requires id == if UsesFreshSession(sessions, req) then freshId else req.sessionId.value
    requires store == if UsesFreshSession(sessions, req) then Created(sessions, freshId) else sessions
    ensures id in store
    ensures ChatStep(sessions, req, freshId, gen) == Serve(store, id, req.query, gen)
  {
  }

  /** `Serve` on a live session, with the reply taken from the node's last
      message. */
  lemma ServeUnfold(store: map<string, SessionState>, id: string, query: string, gen: Generation)
    requires id in store && !store[id].conversationEnd
    ensures
      var messages := store[id].messages + [Human(query)];
      var out := PG.Transition(PG.PatientState(messages, store[id].revealedSymptoms, false), gen);
      Serve(store, id, query, gen) == ChatOutcome(
        store[id := SessionState(out.messages, out.revealedSymptoms, out.conversationEnd)],
        ChatResponse(id, out.messages[|out.messages| - 1].content, out.conversationEnd),
        Some(ProviderCall(PatientPersona(false), ProviderHistory(messages))))
  {
    PG.OneReplyAppended(PG.PatientState(store[id].messages + [Human(query)], store[id].revealedSymptoms, false), gen);
  }

  /** A live session is stored back with the query and the patient's reply
      appended, its revealed symptoms extended with those the reply newly
      mentions, and left open; the answer is that reply, and the completion
      call sees the history ending with the query. */
  lemma ServeLive(store: map<string, SessionState>, id: string, query: string, gen: Generation)
    requires id in store && !store[id].conversationEnd
    ensures
      var o := Serve(store, id, query, gen);
      var before := store[id];
      var reply := PG.Reply(gen);
      && o.sessions == store[id := SessionState(before.messages + [Human(query), Ai(reply)],
           before.revealedSymptoms + PG.NewSymptoms(PG.SymptomKeywords, before.revealedSymptoms, Lower(reply)), false)]
      && o.response == ChatResponse(id, reply, false)
      && o.call == Some(ProviderCall(PatientPersona(false), ProviderHistory(before.messages + [Human(query)])))
  {
    var messages := store[id].messages + [Human(query)];
    var s := PG.PatientState(messages, store[id].revealedSymptoms, false);
    PG.OneReplyAppended(s, gen);
    PG.ConversationEndPassesThrough(s, gen);
    assert messages + [Ai(PG.Reply(gen))] == store[id].messages + [Human(query), Ai(PG.Reply(gen))];
  }

  /** Serving answers under `id`, keeps `id` stored, and leaves every other
      session as it was. */
  lemma ServeKeepsOthers(store: map<string, SessionState>, id: string, query: string, gen: Generation, other: string)
    requires id in store
    ensures var o := Serve(store, id, query, gen);
      && o.response.sessionId == id
      && id in o.sessions
      && (other != id ==> (other in o.sessions <==> other in store))
      && (other != id && other in store ==> o.sessions[other] == store[other])
  {
  }

  /** Serving a live session answers `conversation_end = false`, makes the
      completion call, and leaves the session open. */
  lemma ServeKeepsOpen(store: map<string, SessionState>, id: string, query: string, gen: Generation)
    requires id in store && !store[id].conversationEnd
    ensures var o := Serve(store, id, query, gen);
      !o.response.conversationEnd && o.call.Some? && id in o.sessions && !o.sessions[id].conversationEnd
  {
    PG.ConversationEndPassesThrough(PG.PatientState(store[id].messages + [Human(query)], store[id].revealedSymptoms, false), gen);
  }

  /** Writing an entry twice leaves the second value: the in-place append
      followed by the overwrite stores only the node's output. */
  lemma OverwriteTwice(sessions: map<string, SessionState>, id: string, first: SessionState, second: SessionState)
    ensures sessions[id := first][id := second] == sessions[id := second]
  {
  }

  /** `chat`: fetch or create the session, answer an ended one with the
      canned reply, otherwise append the query in place, run the patient
      node and overwrite the stored fields with its output. */
  method Chat(store: SessionStore, req: ChatRequest, freshId: string, gen: Generation) returns (resp: ChatResponse, call: Option<ProviderCall>)
    requires freshId !in store.sessions
    modifies store
    ensures store.sessions == ChatStep(old(store.sessions), req, freshId, gen).sessions
    ensures resp == ChatStep(old(store.sessions), req, freshId, gen).response
    ensures call == ChatStep(old(store.sessions), req, freshId, gen).call
  {
    ghost var before := store.sessions;
    var sessionId, st := FetchOrCreate(store, req, freshId);
    ChatStepServes(before, req, freshId, gen, sessionId, store.sessions);
    if st.conversationEnd {
      return ChatResponse(sessionId, ChatCompleted, true), None;
    }

    ServeUnfold(store.sessions, sessionId, req.query, gen);
    ghost var fetched := store.sessions;
    st := st.(messages := st.messages + [Human(req.query)]);
    store.sessions := store.sessions[sessionId := st];
    ghost var appended := st;

    var out, c := PG.PatientNode(PG.PatientState(st.messages, st.revealedSymptoms, false), gen);
    call := Some(c);

    st := st.(messages := out.messages);
    st := st.(revealedSymptoms := out.revealedSymptoms);
    st := st.(conversationEnd := out.conversationEnd);
    store.sessions := store.sessions[sessionId := st];
    OverwriteTwice(fetched, sessionId, appended, st);

    resp := ChatResponse(sessionId, out.messages[|out.messages| - 1].content, st.conversationEnd);
  }

  /** `TreatmentStep` on a live session. */
  lemma TreatmentStepUnfold(sessions: map<string, SessionState>, req: TreatmentRequest, gen: Generation)
    requires !Falsy(req.sessionId) && req.sessionId.value in sessions
    requires !sessions[req.sessionId.value].conversationEnd
    ensures
      var id := req.sessionId.value;
      var messages := sessions[id].messages + [Human(req.prescription)];
      var out := TG.Transition(TG.TreatmentState(messages, false, false), gen);
      TreatmentStep(sessions, req, gen) == TreatmentOutcome(
        if out.conversationEnd then Removed(sessions[id := SessionState(out.messages, sessions[id].revealedSymptoms, true)], id)
        else sessions[id := SessionState(out.messages, sessions[id].revealedSymptoms, false)],
        TreatmentResponse(Some(id), out.messages[|out.messages| - 1].content, out.conversationEnd),
        Some(ProviderCall(TG.Prompt(false), ProviderHistory(messages))))
  {
    var id := req.sessionId.value;
    var messages := sessions[id].messages + [Human(req.prescription)];
    TG.OneReplyAppended(TG.TreatmentState(messages, false, false), gen);
    assert Removed(sessions[id := SessionState(TG.Transition(TG.TreatmentState(messages, false, false), gen).messages, sessions[id].revealedSymptoms, true)], id) == Removed(sessions, id);
  }

  /** `treatment`: reject a request without a live session, otherwise append
      the prescription in place, run the treatment node from
      `clarification_used = false`, overwrite the stored fields, and delete
      the session when the node ends the conversation. */
  method Treatment(store: SessionStore, req: TreatmentRequest, gen: Generation) returns (resp: TreatmentResponse, call: Option<ProviderCall>)
    modifies store
    ensures store.sessions == TreatmentStep(old(store.sessions), req, gen).sessions
    ensures resp == TreatmentStep(old(store.sessions), req, gen).response
    ensures call == TreatmentStep(old(store.sessions), req, gen).call
  {
    if req.sessionId.None? || req.sessionId.value == "" {
      return TreatmentResponse(None, NoActiveSession, true), None;
    }
    var sessionId := req.sessionId.value;
    var state := store.GetSession(sessionId);
    if state.None? {
      return TreatmentResponse(None, SessionExpired, true), None;
    }
    var st := state.value;
    if st.conversationEnd {
      return TreatmentResponse(Some(sessionId), TreatmentCompleted, true), None;
    }
    TreatmentStepUnfold(store.sessions, req, gen);

    ghost var fetched := store.sessions;
    st := st.(messages := st.messages + [Human(req.prescription)]);
    store.sessions := store.sessions[sessionId := st];
    ghost var appended := st;

    var result, c := TG.TreatmentNode(TG.TreatmentState(st.messages, false, false), gen);
    call := c;

    st := st.(messages := result.messages);
    st := st.(conversationEnd := result.conversationEnd);
    store.sessions := store.sessions[sessionId := st];
    OverwriteTwice(fetched, sessionId, appended, st);

    if st.conversationEnd {
      store.ResetSession(sessionId);
    }

    resp := TreatmentResponse(Some(sessionId), result.messages[|result.messages| - 1].content, st.conversationEnd);
  }

  /** The id a chat turn is served under: a new session's when the request
      names none or an unknown one, the named one otherwise. Every other
      stored session is left as it was. */
  lemma ChatServesSession(sessions: map<string, SessionState>, req: ChatRequest, freshId: string, gen: Generation, other: string)
    requires freshId !in sessions
    ensures var o := ChatStep(sessions, req, freshId, gen);
      && (UsesFreshSession(sessions, req) ==> o.response.sessionId == freshId && freshId in o.sessions)
      && (!UsesFreshSession(sessions, req) ==> o.response.sessionId == req.sessionId.value)
      && o.response.sessionId in o.sessions
      && (other != o.response.sessionId ==> (other in o.sessions <==> other in sessions))
      && (other != o.response.sessionId && other in sessions ==> o.sessions[other] == sessions[other])
  {
    var id := if UsesFreshSession(sessions, req) then freshId else req.sessionId.value;
    var store := if UsesFreshSession(sessions, req) then Created(sessions, freshId) else sessions;
    ChatStepServes(sessions, req, freshId, gen, id, store);
    ServeKeepsOthers(store, id, req.query, gen, other);
  }

  /** A chat request naming an ended session gets the canned reply; the store
      is unchanged and no completion call is made. */
  lemma ChatEndedSession(sessions: map<string, SessionState>, req: ChatRequest, freshId: string, gen: Generation)
    requires !UsesFreshSession(sessions, req) && sessions[req.sessionId.value].conversationEnd
    ensures ChatStep(sessions, req, freshId, gen) ==
      ChatOutcome(sessions, ChatResponse(req.sessionId.value, "[Conversation already completed politely.]", true), None)
  {
  }

  /** A chat turn on a live session stores the history with the query and the
      patient's reply appended, extends the revealed symptoms with those the
      reply newly mentions, answers with that reply, and leaves the session
      open. The completion call sees the history ending with the query. */
  lemma ChatLiveTurn(sessions: map<string, SessionState>, req: ChatRequest, freshId: string, gen: Generation)
    requires freshId !in sessions
    requires UsesFreshSession(sessions, req) || !sessions[req.sessionId.value].conversationEnd
    ensures
      var o := ChatStep(sessions, req, freshId, gen);
      var id := o.response.sessionId;
      var before := if UsesFreshSession(sessions, req) then EmptySession() else sessions[id];
      var reply := PG.Reply(gen);
      && o.sessions[id].messages == before.messages + [Human(req.query), Ai(reply)]
      && o.sessions[id].revealedSymptoms == before.revealedSymptoms + PG.NewSymptoms(PG.SymptomKeywords, before.revealedSymptoms, Lower(reply))
      && !o.sessions[id].conversationEnd
      && o.response.reply == reply
      && !o.response.conversationEnd
      && o.call == Some(ProviderCall(PatientPersona(false), ProviderHistory(before.messages + [Human(req.query)])))
  {
    var id := if UsesFreshSession(sessions, req) then freshId else req.sessionId.value;
    var store := if UsesFreshSession(sessions, req) then Created(sessions, freshId) else sessions;
    ChatStepServes(sessions, req, freshId, gen, id, store);
    ServeLive(store, id, req.query, gen);
  }

  /** The stateful chat flow never ends a conversation: on a store where no
      session has ended, a chat turn answers `conversation_end = false`,
      always makes the completion call, and no session has ended after it. */
  lemma ChatNeverEnds(sessions: map<string, SessionState>, req: ChatRequest, freshId: string, gen: Generation)
    requires freshId !in sessions && NoneEnded(sessions)
    ensures var o := ChatStep(sessions, req, freshId, gen);
      !o.response.conversationEnd && o.call.Some? && NoneEnded(o.sessions)
  {
    var id := if UsesFreshSession(sessions, req) then freshId else req.sessionId.value;
    var store := if UsesFreshSession(sessions, req) then Created(sessions, freshId) else sessions;
    ChatStepServes(sessions, req, freshId, gen, id, store);
    NoneEndedKept(sessions, freshId);
    ServeKeepsOpen(store, id, req.query, gen);
    var o := Serve(store, id, req.query, gen);
    forall other | other in o.sessions ensures !o.sessions[other].conversationEnd {
      ServeKeepsOthers(store, id, req.query, gen, other);
    }
  }

  /** A treatment request without a session id, or with one the store does
      not hold, gets the matching canned reply with `conversation_end = true`,
      no session id, no change to the store and no completion call. */
  lemma TreatmentWithoutSession(sessions: map<string, SessionState>, req: TreatmentRequest, gen: Generation)
    ensures Falsy(req.sessionId) ==>
      TreatmentStep(sessions, req, gen) == TreatmentOutcome(sessions, TreatmentResponse(None, "No active session found.", true), None)
    ensures !Falsy(req.sessionId) && req.sessionId.value !in sessions ==>
      TreatmentStep(sessions, req, gen) == TreatmentOutcome(sessions, TreatmentResponse(None, "Session expired.", true), None)
  {
  }

  /** A treatment request naming an ended session gets the canned reply; the
      store is unchanged and no completion call is made. */
  lemma TreatmentEndedSession(sessions: map<string, SessionState>, req: TreatmentRequest, gen: Generation)
    requires !Falsy(req.sessionId) && req.sessionId.value in sessions
    requires sessions[req.sessionId.value].conversationEnd
    ensures TreatmentStep(sessions, req, gen) ==
      TreatmentOutcome(sessions, TreatmentResponse(req.sessionId, "[Consultation already completed politely.]", true), None)
  {
  }

  /** A treatment turn on a live session always reviews the prescription
      afresh (the stored session keeps no clarification flag), answers with
      the patient's reply, and ends exactly when the call failed or the reply
      asks nothing. An ended turn deletes the session; an open one stores the
      history with the prescription and the reply appended. Other sessions
      are untouched. */
  lemma TreatmentLiveTurn(sessions: map<string, SessionState>, req: TreatmentRequest, gen: Generation)
    requires !Falsy(req.sessionId) && req.sessionId.value in sessions
    requires !sessions[req.sessionId.value].conversationEnd
    ensures
      var o := TreatmentStep(sessions, req, gen);
      var id := req.sessionId.value;
      var reply := TG.Reply(gen);
      && o.response.sessionId == Some(id)
      && o.response.patientReply == reply
      && (o.response.conversationEnd <==> gen.Failed? || !TG.AskedQuestion(reply))
      && (o.response.conversationEnd ==> o.sessions == sessions - {id})
      && (!o.response.conversationEnd ==> o.sessions == sessions[id := SessionState(
            sessions[id].messages + [Human(req.prescription), Ai(reply)], sessions[id].revealedSymptoms, false)])
      && o.call == Some(ProviderCall(ReviewPrescription, ProviderHistory(sessions[id].messages + [Human(req.prescription)])))
  {
    TreatmentStepUnfold(sessions, req, gen);
    var id := req.sessionId.value;
    var messages := sessions[id].messages + [Human(req.prescription)];
    TG.OneReplyAppended(TG.TreatmentState(messages, false, false), gen);
    TG.FlagRule(TG.TreatmentState(messages, false, false), gen);
    assert messages + [Ai(TG.Reply(gen))] == sessions[id].messages + [Human(req.prescription), Ai(TG.Reply(gen))];
  }

  /** A treatment session is single-use: after a turn the session is stored
      exactly when the turn left the conversation open, and no stored session
      has ended if none had before. */
  lemma TreatmentSessionLifecycle(sessions: map<string, SessionState>, req: TreatmentRequest, gen: Generation)
    requires NoneEnded(sessions)
    ensures var o := TreatmentStep(sessions, req, gen);
      && NoneEnded(o.sessions)
      && (!Falsy(req.sessionId) && req.sessionId.value in sessions ==>
            (req.sessionId.value in o.sessions <==> !o.response.conversationEnd) && o.call.Some?)
  {
    if !Falsy(req.sessionId) && req.sessionId.value in sessions {
      TreatmentLiveTurn(sessions, req, gen);
    }
  }

  /** No stored session is ever ended. The store starts empty; creating,
      resetting, and every `chat` and `treatment` request keep every stored
      session un-ended. So the ended-session branches of both endpoints
      cannot be reached: a chat request is always served with a completion
      call, and so is a treatment request that names a stored session. */
  lemma EndedBranchesUnreachable(sessions: map<string, SessionState>, chatReq: ChatRequest, freshId: string,
                                 treatmentReq: TreatmentRequest, gen: Generation, id: string)
    requires NoneEnded(sessions) && freshId !in sessions
    ensures NoneEnded(map[])
    ensures NoneEnded(Created(sessions, id)) && NoneEnded(Removed(sessions, id))
    ensures NoneEnded(ChatStep(sessions, chatReq, freshId, gen).sessions)
    ensures ChatStep(sessions, chatReq, freshId, gen).call.Some?
    ensures NoneEnded(TreatmentStep(sessions, treatmentReq, gen).sessions)
    ensures !Falsy(treatmentReq.sessionId) && treatmentReq.sessionId.value in sessions ==>
      TreatmentStep(sessions, treatmentReq, gen).call.Some?
  {
    NoneEndedKept(sessions, id);
    ChatNeverEnds(sessions, chatReq, freshId, gen);
    TreatmentSessionLifecycle(sessions, treatmentReq, gen);
  }

  /** As written, `treatment` keeps no clarification flag: every turn on a
      stored session runs the node from `clarification_used = false`, so a
      reply that asks a question keeps the session open however many
      questions came before. Two questioning turns in a row both stay open,
      and both leave the session stored. */
  lemma RepeatedClarifications(sessions: map<string, SessionState>, first: TreatmentRequest, second: TreatmentRequest,
                               text1: string, text2: string)
    requires !Falsy(first.sessionId) && first.sessionId.value in sessions
    requires !sessions[first.sessionId.value].conversationEnd
    requires second.sessionId == first.sessionId
    requires TG.AskedQuestion(Strip(text1)) && TG.AskedQuestion(Strip(text2))
    ensures
      var id := first.sessionId.value;
      var o1 := TreatmentStep(sessions, first, Generated(text1));
      var o2 := TreatmentStep(o1.sessions, second, Generated(text2));
      && !o1.response.conversationEnd && id in o1.sessions
      && !o2.response.conversationEnd && id in o2.sessions
  {
    var id := first.sessionId.value;
    TreatmentLiveTurn(sessions, first, Generated(text1));
    var o1 := TreatmentStep(sessions, first, Generated(text1));
    TreatmentLiveTurn(o1.sessions, second, Generated(text2));
  }

  /** What a corrected `treatment` request does: the store, the
      clarification flag kept per session, and the response. */
  datatype CorrectedOutcome = CorrectedOutcome(sessions: map<string, SessionState>, flags: map<string, bool>, response: TreatmentResponse)

  /** `treatment` corrected to keep the clarification flag of each session:
      the node starts from the flag stored under the id (false for a
      session that has none yet), and the flag it returns is stored back.
      Everything else is as in `TreatmentStep`. */
  function CorrectedTreatmentStep(sessions: map<string, SessionState>, flags: map<string, bool>, req: TreatmentRequest, gen: Generation): CorrectedOutcome
  {
    if Falsy(req.sessionId) then
      CorrectedOutcome(sessions, flags, TreatmentResponse(None, NoActiveSession, true))
    else if req.sessionId.value !in sessions then
      CorrectedOutcome(sessions, flags, TreatmentResponse(None, SessionExpired, true))
    else
      var id := req.sessionId.value;
      var state := sessions[id];
      if state.conversationEnd then
        CorrectedOutcome(sessions, flags, TreatmentResponse(Some(id), TreatmentCompleted, true))
      else
        var used := id in flags && flags[id];
        var messages := state.messages + [Human(req.prescription)];
        var out := TG.Transition(TG.TreatmentState(messages, used, false), gen);
        var store :=
          if out.conversationEnd then Removed(sessions, id)
          else sessions[id := SessionState(out.messages, state.revealedSymptoms, false)];
        CorrectedOutcome(store, flags[id := out.clarificationUsed], TreatmentResponse(Some(id), LastContent(out.messages), out.conversationEnd))
  }

  /** With the flag kept, a backend consultation gets at most one clarifying
      question: a turn that leaves the session open has stored the flag as
      used, and the next turn on that session ends the conversation. */
  lemma CorrectedAtMostOneClarification(sessions: map<string, SessionState>, flags: map<string, bool>,
                                        first: TreatmentRequest, second: TreatmentRequest, gen1: Generation, gen2: Generation)
    requires !Falsy(first.sessionId) && first.sessionId.value in sessions
    requires !sessions[first.sessionId.value].conversationEnd
    requires second.sessionId == first.sessionId
    ensures
      var id := first.sessionId.value;
      var o1 := CorrectedTreatmentStep(sessions, flags, first, gen1);
      var o2 := CorrectedTreatmentStep(o1.sessions, o1.flags, second, gen2);
      !o1.response.conversationEnd ==> id in o1.flags && o1.flags[id] && o2.response.conversationEnd
  {
    var id := first.sessionId.value;
    var used := id in flags && flags[id];
    var s1 := TG.TreatmentState(sessions[id].messages + [Human(first.prescription)], used, false);
    TG.FlagRule(s1, gen1);
    var o1 := CorrectedTreatmentStep(sessions, flags, first, gen1);
    if !o1.response.conversationEnd {
      var s2 := TG.TreatmentState(o1.sessions[id].messages + [Human(second.prescription)], true, false);
      TG.FlagRule(s2, gen2);
    }
  }
}
