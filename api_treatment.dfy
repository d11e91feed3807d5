/** The serverless treatment handler of `api/treatment.py`: POST only, the
    prescription taken as it is, the transcript read strictly, and the
    client's `clarification_used` handed to the treatment node. */
module ApiTreatment {
  import opened Wrappers
  import opened Messages
  import opened ApiTypes
  import TG = TreatmentGraph

  const Greeting: string := "Please share the prescription given by the doctor."
  const PostOnly: string := "Only POST method allowed"

  /** `not prescription and not messages`. */
  predicate Opening(body: Body)
  {
    (body.prescription.None? || body.prescription.value == "") && body.messages.GetOr([]) == []
  }

  /** One turn: the treatment node run from `conversation_end = false` on
      the history and the prescription, and the transcript answered with
      both appended, together with the node's two flags. */
  function Turn(messages: seq<JsonMessage>, history: seq<Message>, prescription: string, clarificationUsed: bool, gen: Generation): Handled
  {
    var graphMessages := history + [Human(prescription)];
    var out := TG.Transition(TG.TreatmentState(graphMessages, clarificationUsed, false), gen);
    var reply := LastContent(out.messages);
    Handled(
      Response(200, TreatmentReply(reply, out.conversationEnd, out.clarificationUsed,
        messages + [DoctorEntry(prescription)] + [PatientEntry(reply)])),
      Some(ProviderCall(TG.Prompt(clarificationUsed), ProviderHistory(graphMessages))))
  }

  /** The reference behaviour of `handler`. */
  function HandleSpec(req: Request, gen: Generation): Handled
  {
    if req.httpMethod != "POST" then Handled(Response(405, ErrorMessage(PostOnly)), None)
    else if req.body.None? then Handled(Response(400, ErrorMessage(InvalidJson)), None)
    else
      var body := req.body.value;
      var messages := body.messages.GetOr([]);
      if Opening(body) then
        Handled(Response(200, TreatmentReply(Greeting, false, false, [PatientEntry(Greeting)])), None)
      else
        var history := ReadAll(messages, true);
        if history.None? || body.prescription.None? then Handled(Raises, None)
        else Turn(messages, history.value, body.prescription.value, body.clarificationUsed.GetOr(false), gen)
  }

  /** Past the greeting, on a transcript that reads and with a prescription
      present, the handler is the turn. */
  lemma HandleIsTurn(req: Request, gen: Generation, prescription: string, messages: seq<JsonMessage>, history: seq<Message>)
    requires req.httpMethod == "POST" && req.body.Some? && !Opening(req.body.value)
    requires req.body.value.prescription == Some(prescription)
    requires messages == req.body.value.messages.GetOr([])
    requires ReadAll(messages, true) == Some(history)
    ensures HandleSpec(req, gen) == Turn(messages, history, prescription, req.body.value.clarificationUsed.GetOr(false), gen)
  {
  }

  /** The turn's answer, with the reply taken from the node's last
      message. */
  lemma TurnUnfold(messages: seq<JsonMessage>, history: seq<Message>, prescription: string, clarificationUsed: bool, gen: Generation)
    ensures
      var graphMessages := history + [Human(prescription)];
      var out := TG.Transition(TG.TreatmentState(graphMessages, clarificationUsed, false), gen);
      var reply := out.messages[|out.messages| - 1].content;
      Turn(messages, history, prescription, clarificationUsed, gen) == Handled(
        Response(200, TreatmentReply(reply, out.conversationEnd, out.clarificationUsed,
          messages + [DoctorEntry(prescription)] + [PatientEntry(reply)])),
        Some(ProviderCall(TG.Prompt(clarificationUsed), ProviderHistory(graphMessages))))
  {
    TG.OneReplyAppended(TG.TreatmentState(history + [Human(prescription)], clarificationUsed, false), gen);
  }

  /** `handler`. */
  method Handle(req: Request, gen: Generation) returns (r: Handled)
    ensures r == HandleSpec(req, gen)
  {
    if req.httpMethod != "POST" {
      return Handled(Response(405, ErrorMessage(PostOnly)), None);
    }
    if req.body.None? {
      return Handled(Response(400, ErrorMessage(InvalidJson)), None);
    }
    var body := req.body.value;
    var prescription := body.prescription;
    var messages := body.messages.GetOr([]);
    var clarificationUsed := body.clarificationUsed.GetOr(false);

    if (prescription.None? || prescription.value == "") && messages == [] {
      return Handled(Response(200, TreatmentReply(Greeting, false, false, [PatientEntry(Greeting)])), None);
    }

    var history := StrictHistory(messages);
    if history.None? || prescription.None? {
      return Handled(Raises, None);
    }
    var doctorMessage := prescription.value;
    HandleIsTurn(req, gen, doctorMessage, messages, history.value);
    TurnUnfold(messages, history.value, doctorMessage, clarificationUsed, gen);
    var graphMessages := history.value + [Human(doctorMessage)];

    var newState, call := TG.TreatmentNode(TG.TreatmentState(graphMessages, clarificationUsed, false), gen);
    TG.OneReplyAppended(TG.TreatmentState(graphMessages, clarificationUsed, false), gen);
    var reply := newState.messages[|newState.messages| - 1].content;

    messages := messages + [DoctorEntry(doctorMessage)];
    messages := messages + [PatientEntry(reply)];

    r := Handled(Response(200, TreatmentReply(reply, newState.conversationEnd, newState.clarificationUsed, messages)), call);
  }

  /** Only POST is served; a body that is not JSON is a 400. Neither calls
      the model. */
  lemma RejectsNonPost(req: Request, gen: Generation)
    ensures req.httpMethod != "POST" ==> HandleSpec(req, gen) == Handled(Response(405, ErrorMessage(PostOnly)), None)
    ensures req.httpMethod == "POST" && req.body.None? ==> HandleSpec(req, gen) == Handled(Response(400, ErrorMessage(InvalidJson)), None)
  {
  }

  /** A missing or empty prescription with an empty transcript gets the
      greeting as a one-entry patient transcript, with both flags false and
      no model call. */
  lemma Greets(req: Request, gen: Generation)
    requires req.httpMethod == "POST" && req.body.Some? && Opening(req.body.value)
    ensures HandleSpec(req, gen) == Handled(Response(200, TreatmentReply(Greeting, false, false, [PatientEntry(Greeting)])), None)
  {
  }

  /** Past the greeting, the handler raises exactly when the prescription is
      missing or some transcript entry lacks its role or content. */
  lemma RaisesIffMissingMember(req: Request, gen: Generation)
    requires req.httpMethod == "POST" && req.body.Some? && !Opening(req.body.value)
    ensures HandleSpec(req, gen).outcome == Raises <==>
      (|| req.body.value.prescription.None?
       || (exists i :: 0 <= i < |req.body.value.messages.GetOr([])| && StrictMessage(req.body.value.messages.GetOr([])[i]).None?))
  {
    ReadAllIff(req.body.value.messages.GetOr([]), true);
  }

  /** A turn calls the model with the prompt the client's flag selects and
      the whole history; it answers with the reply and the node's flags:
      the conversation ends exactly when the clarification was already
      used, the call failed, or the reply asks nothing, and the
      clarification is used exactly when it was before, the call failed, or
      the reply asks something. The transcript answered reads back as the
      history with the prescription and the reply. */
  lemma TurnFlags(messages: seq<JsonMessage>, history: seq<Message>, prescription: string, used: bool, gen: Generation)
    requires ReadAll(messages, true) == Some(history)
    ensures var h := Turn(messages, history, prescription, used, gen);
      var reply := TG.Reply(gen);
      && h.call == Some(ProviderCall(TG.Prompt(used), ProviderHistory(history + [Human(prescription)])))
      && h.outcome.Response? && h.outcome.status == 200 && h.outcome.payload.TreatmentReply?
      && h.outcome.payload.patientReply == reply
      && h.outcome.payload.messages == messages + [DoctorEntry(prescription)] + [PatientEntry(reply)]
      && (h.outcome.payload.conversationEnd <==> (used || gen.Failed? || !TG.AskedQuestion(reply)))
      && (h.outcome.payload.clarificationUsed <==> (used || gen.Failed? || TG.AskedQuestion(reply)))
      && ReadAll(h.outcome.payload.messages, true) == Some(history + [Human(prescription)] + [Ai(reply)])
  {
    var s := TG.TreatmentState(history + [Human(prescription)], used, false);
    TurnUnfold(messages, history, prescription, used, gen);
    TG.OneReplyAppended(s, gen);
    TG.FlagRule(s, gen);
    ReadAllTurn(messages, history, prescription, TG.Reply(gen), true);
  }

  /** The client's next request: the transcript and the flag it was given
      back, and the next prescription message. */
  function FollowUp(previous: Handled, prescription: string): Request
  {
    var (messages, used) :=
      if previous.outcome.Response? && previous.outcome.payload.TreatmentReply?
      then (previous.outcome.payload.messages, previous.outcome.payload.clarificationUsed)
      else ([], false);
    Request("POST", Some(Body(None, Some(messages), None, None, Some(prescription), Some(used))))
  }

  /** A treatment answer that ends the conversation. */
  predicate Ends(h: Handled)
  {
    h.outcome.Response? && h.outcome.payload.TreatmentReply? && h.outcome.payload.conversationEnd
  }

  /** A client that sends back what it is given gets at most one
      clarifying question: an answer that does not end the conversation has
      used the clarification, and the request that follows it ends the
      conversation. */
  lemma AtMostOneClarification(req: Request, gen: Generation, prescription: string, gen': Generation)
    requires req.httpMethod == "POST" && req.body.Some? && !Opening(req.body.value)
    requires ReadAll(req.body.value.messages.GetOr([]), true).Some? && req.body.value.prescription.Some?
    ensures var h := HandleSpec(req, gen);
      && h.outcome.Response? && h.outcome.payload.TreatmentReply?
      && (!h.outcome.payload.conversationEnd ==> h.outcome.payload.clarificationUsed)
      && (h.outcome.payload.clarificationUsed ==> Ends(HandleSpec(FollowUp(h, prescription), gen')))
  {
    var messages := req.body.value.messages.GetOr([]);
    var history := ReadAll(messages, true).value;
    var used := req.body.value.clarificationUsed.GetOr(false);
    HandleIsTurn(req, gen, req.body.value.prescription.value, messages, history);
    TurnFlags(messages, history, req.body.value.prescription.value, used, gen);
    var h := HandleSpec(req, gen);
    if h.outcome.payload.clarificationUsed {
      var next := FollowUp(h, prescription);
      var nextMessages := h.outcome.payload.messages;
      var nextHistory := ReadAll(nextMessages, true).value;
      assert nextMessages != [];
      HandleIsTurn(next, gen', prescription, nextMessages, nextHistory);
      TurnFlags(nextMessages, nextHistory, prescription, true, gen');
    }
  }
}
