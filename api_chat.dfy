/** The serverless chat handler of `api/chat.py`. Like the Flask endpoint it
    keeps no state, but it accepts POST only, does not strip the message,
    reads the transcript strictly, always appends the doctor's message, and
    greets with a transcript holding a bare string. */
module ApiChat {
  import opened Wrappers
  import opened Messages
  import opened ApiTypes
  import PG = PatientGraph

  /** The greeting, with a typographic apostrophe (U+2019). */
  const Greeting: string := "Hello! I\U{2019}m ready to discuss my symptoms with you."
  const PostOnly: string := "Only POST method allowed"

  /** `not user_message and not messages`. */
  predicate Opening(body: Body)
  {
    (body.userMessage.None? || body.userMessage.value == "") && body.messages.GetOr([]) == []
  }

  /** The handler, given the one entry of the greeting transcript. */
  function HandleWith(req: Request, gen: Generation, greetingEntry: JsonMessage): Handled
  {
    if req.httpMethod != "POST" then Handled(Response(405, ErrorMessage(PostOnly)), None)
    else if req.body.None? then Handled(Response(400, ErrorMessage(InvalidJson)), None)
    else
      var body := req.body.value;
      var messages := body.messages.GetOr([]);
      if Opening(body) then Handled(Response(200, ChatReply(Greeting, false, [greetingEntry])), None)
      else
        var history := ReadAll(messages, true);
        if history.None? || body.userMessage.None? then Handled(Raises, None)
        else Turn(messages, history.value, body.userMessage.value, gen)
  }

  /** One turn: the patient node run on the history read from the
      transcript and the doctor's message, and the transcript answered with
      the message and the reply appended. */
  function Turn(messages: seq<JsonMessage>, history: seq<Message>, userMessage: string, gen: Generation): Handled
  {
    var graphMessages := history + [Human(userMessage)];
    var out := PG.Transition(PG.PatientState(graphMessages, [], false), gen);
    var reply := LastContent(out.messages);
    Handled(
      Response(200, ChatReply(reply, out.conversationEnd, messages + [DoctorEntry(userMessage)] + [PatientEntry(reply)])),
      Some(ProviderCall(PatientPersona(false), ProviderHistory(graphMessages))))
  }

  /** The reference behaviour of `handler` as written: the greeting
      transcript is the bare greeting string. */
  function HandleSpec(req: Request, gen: Generation): Handled
  {
    HandleWith(req, gen, Bare(Greeting))
  }

  /** The reference behaviour with the greeting transcript as a patient
      entry, the form every other greeting of the system takes. */
  function HandleCorrectedSpec(req: Request, gen: Generation): Handled
  {
    HandleWith(req, gen, PatientEntry(Greeting))
  }

  /** The turn's answer, with the reply taken from the node's last
      message. */
  lemma TurnUnfold(messages: seq<JsonMessage>, history: seq<Message>, userMessage: string, gen: Generation)
    ensures
      var graphMessages := history + [Human(userMessage)];
      var out := PG.Transition(PG.PatientState(graphMessages, [], false), gen);
      var reply := out.messages[|out.messages| - 1].content;
      Turn(messages, history, userMessage, gen) == Handled(
        Response(200, ChatReply(reply, out.conversationEnd, messages + [DoctorEntry(userMessage)] + [PatientEntry(reply)])),
        Some(ProviderCall(PatientPersona(false), ProviderHistory(graphMessages))))
  {
    PG.OneReplyAppended(PG.PatientState(history + [Human(userMessage)], [], false), gen);
  }

  /** `handler` as written. */
  method Handle(req: Request, gen: Generation) returns (r: Handled)
    ensures r == HandleSpec(req, gen)
  {
    if req.httpMethod != "POST" {
      return Handled(Response(405, ErrorMessage(PostOnly)), None);
    }
    if req.body.None? {
      return Handled(Response(400, ErrorMessage(InvalidJson)), None);
    }
    var body := req.body.value;
    var userMessage := body.userMessage;
    var messages := body.messages.GetOr([]);

    if (userMessage.None? || userMessage.value == "") && messages == [] {
      return Handled(Response(200, ChatReply(Greeting, false, [Bare(Greeting)])), None);
    }

    var history := StrictHistory(messages);
    if history.None? || userMessage.None? {
      return Handled(Raises, None);
    }
    var doctorMessage := userMessage.value;
    HandleIsTurn(req, gen, Bare(Greeting), doctorMessage, messages, history.value);
    TurnUnfold(messages, history.value, doctorMessage, gen);
    var graphMessages := history.value + [Human(doctorMessage)];

    var newState, call := PG.PatientNode(PG.PatientState(graphMessages, [], false), gen);
    PG.OneReplyAppended(PG.PatientState(graphMessages, [], false), gen);
    var reply := newState.messages[|newState.messages| - 1].content;

    messages := messages + [DoctorEntry(doctorMessage)];
    messages := messages + [PatientEntry(reply)];

    r := Handled(Response(200, ChatReply(reply, newState.conversationEnd, messages)), Some(call));
  }

  /** Only POST is served; a body that is not JSON is a 400. Neither calls
      the model. */
  lemma RejectsNonPost(req: Request, gen: Generation)
    ensures req.httpMethod != "POST" ==> HandleSpec(req, gen) == Handled(Response(405, ErrorMessage(PostOnly)), None)
    ensures req.httpMethod == "POST" && req.body.None? ==> HandleSpec(req, gen) == Handled(Response(400, ErrorMessage(InvalidJson)), None)
  {
  }

  /** A missing or empty message with an empty transcript gets the greeting,
      `conversation_end = false`, and the transcript `[greeting]`, without a
      model call. */
  lemma Greets(req: Request, gen: Generation)
    requires req.httpMethod == "POST" && req.body.Some? && Opening(req.body.value)
    ensures HandleSpec(req, gen) == Handled(Response(200, ChatReply(Greeting, false, [Bare(Greeting)])), None)
  {
  }

  /** Past the greeting, the handler raises exactly when the message is
      missing or some transcript entry lacks its role or content. */
  lemma RaisesIffMissingMember(req: Request, gen: Generation)
    requires req.httpMethod == "POST" && req.body.Some? && !Opening(req.body.value)
    ensures HandleSpec(req, gen).outcome == Raises <==>
      (|| req.body.value.userMessage.None?
       || (exists i :: 0 <= i < |req.body.value.messages.GetOr([])| && StrictMessage(req.body.value.messages.GetOr([])[i]).None?))
  {
    ReadAllIff(req.body.value.messages.GetOr([]), true);
  }

  /** A turn answers with the node's reply and `conversation_end = false`,
      since the node always starts from `conversation_end = false`. */
  lemma TurnReply(messages: seq<JsonMessage>, history: seq<Message>, userMessage: string, gen: Generation)
    ensures Turn(messages, history, userMessage, gen) == Handled(
      Response(200, ChatReply(PG.Reply(gen), false, messages + [DoctorEntry(userMessage)] + [PatientEntry(PG.Reply(gen))])),
      Some(ProviderCall(PatientPersona(false), ProviderHistory(history + [Human(userMessage)]))))
  {
    var s := PG.PatientState(history + [Human(userMessage)], [], false);
    PG.OneReplyAppended(s, gen);
    PG.ConversationEndPassesThrough(s, gen);
  }

  /** Past the greeting, on a transcript that reads and with a message
      present, `HandleWith` is the turn, whichever greeting it was given. */
  lemma HandleIsTurn(req: Request, gen: Generation, greetingEntry: JsonMessage, userMessage: string, messages: seq<JsonMessage>, history: seq<Message>)
    requires req.httpMethod == "POST" && req.body.Some? && !Opening(req.body.value)
    requires req.body.value.userMessage == Some(userMessage)
    requires messages == req.body.value.messages.GetOr([])
    requires ReadAll(messages, true) == Some(history)
    ensures HandleWith(req, gen, greetingEntry) == Turn(messages, history, userMessage, gen)
  {
  }

  /** A chat turn calls the model once with the whole history and the new
      message, appends exactly the doctor entry and the patient's reply to
      the transcript received, and answers `conversation_end = false`, since
      the node always starts from `conversation_end = false`. */
  lemma TurnAppendsTwo(req: Request, gen: Generation)
    requires req.httpMethod == "POST" && req.body.Some? && !Opening(req.body.value)
    requires ReadAll(req.body.value.messages.GetOr([]), true).Some? && req.body.value.userMessage.Some?
    ensures var messages := req.body.value.messages.GetOr([]);
      var userMessage := req.body.value.userMessage.value;
      HandleSpec(req, gen) == Handled(
        Response(200, ChatReply(PG.Reply(gen), false, messages + [DoctorEntry(userMessage)] + [PatientEntry(PG.Reply(gen))])),
        Some(ProviderCall(PatientPersona(false), ProviderHistory(ReadAll(messages, true).value + [Human(userMessage)]))))
  {
    var messages := req.body.value.messages.GetOr([]);
    var userMessage := req.body.value.userMessage.value;
    HandleIsTurn(req, gen, Bare(Greeting), userMessage, messages, ReadAll(messages, true).value);
    TurnReply(messages, ReadAll(messages, true).value, userMessage, gen);
  }

  /** The opening request of a conversation: no message, no transcript. */
  function OpeningRequest(): Request
  {
    Request("POST", Some(Body(None, None, None, None, None, None)))
  }

  /** The client's next request: the transcript it was given back, and the
      doctor's next message. */
  function FollowUp(previous: Handled, message: string): Request
  {
    var messages := if previous.outcome.Response? && previous.outcome.payload.ChatReply? then previous.outcome.payload.messages else [];
    Request("POST", Some(Body(Some(message), Some(messages), None, None, None, None)))
  }

  /** As written, a conversation cannot get past the greeting: the greeting
      transcript, sent back, holds a bare string, on which reading the role
      raises, whatever the doctor writes next. */
  lemma GreetingTranscriptRejected(message: string, gen0: Generation, gen: Generation)
    ensures HandleSpec(OpeningRequest(), gen0).outcome == Response(200, ChatReply(Greeting, false, [Bare(Greeting)]))
    ensures HandleSpec(FollowUp(HandleSpec(OpeningRequest(), gen0), message), gen).outcome == Raises
  {
    assert [Bare(Greeting)][..0] == [];
  }

  /** With a patient-entry greeting, every transcript the handler answers
      with reads back strictly, given one that did: so each answer can be
      sent back as the next request's transcript. */
  lemma CorrectedTranscriptsRead(req: Request, gen: Generation)
    requires req.body.Some? ==> ReadAll(req.body.value.messages.GetOr([]), true).Some?
    ensures var o := HandleCorrectedSpec(req, gen).outcome;
      o.Response? && o.payload.ChatReply? ==> ReadAll(o.payload.messages, true).Some?
  {
    var o := HandleCorrectedSpec(req, gen).outcome;
    if o.Response? && o.payload.ChatReply? {
      if Opening(req.body.value) {
        assert [PatientEntry(Greeting)][..0] == [];
      } else {
        var messages := req.body.value.messages.GetOr([]);
        var history := ReadAll(messages, true).value;
        var userMessage := req.body.value.userMessage.value;
        HandleIsTurn(req, gen, PatientEntry(Greeting), userMessage, messages, history);
        TurnReply(messages, history, userMessage, gen);
        ReadAllTurn(messages, history, userMessage, PG.Reply(gen), true);
      }
    }
  }

  /** With the correction, the doctor's reply to the greeting is an ordinary
      turn: the model sees the greeting and the message. */
  lemma CorrectedGreetingContinues(message: string, gen0: Generation, gen: Generation)
    ensures HandleCorrectedSpec(FollowUp(HandleCorrectedSpec(OpeningRequest(), gen0), message), gen) == Handled(
      Response(200, ChatReply(PG.Reply(gen), false, [PatientEntry(Greeting)] + [DoctorEntry(message)] + [PatientEntry(PG.Reply(gen))])),
      Some(ProviderCall(PatientPersona(false), ProviderHistory([Ai(Greeting)] + [Human(message)]))))
  {
    var transcript := [PatientEntry(Greeting)];
    assert ReadAll(transcript, true) == Some([Ai(Greeting)]) by {
      assert transcript[..0] == [];
      assert ReadAll(transcript[..0], true) == Some([]);
      assert StrictMessage(transcript[0]) == Some(Ai(Greeting));
      assert [] + [Ai(Greeting)] == [Ai(Greeting)];
    }
    HandleIsTurn(FollowUp(HandleCorrectedSpec(OpeningRequest(), gen0), message), gen, PatientEntry(Greeting), message, transcript, [Ai(Greeting)]);
    TurnReply(transcript, [Ai(Greeting)], message, gen);
  }
}
