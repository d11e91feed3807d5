/** The stateless Flask endpoints of `api/index.py`: each request carries
    the whole transcript, which is read leniently, handed to one node, and
    returned with the new entries appended. */
module ApiIndex {
  import opened Wrappers
  import opened Text
  import opened Messages
  import opened ApiTypes
  import PG = PatientGraph
  import TG = TreatmentGraph

  const ChatGreeting: string := "Hello! I'm ready to discuss my symptoms with you."
  const TreatmentGreeting: string := "Please share the prescription given by the doctor."
  const DoctorMessageRequired: string := "doctor_message is required"

  /** The routes accept POST and OPTIONS only. */
  predicate Routed(req: Request)
  {
    req.httpMethod == "POST" || req.httpMethod == "OPTIONS"
  }

  /** The evaluation graph is not modelled: its outcome is given, as the
      evaluation it returns or the message of the exception it raises. */
  datatype Evaluation = Evaluated(evaluation: string) | EvaluationRaised(message: string)

  /** The input the evaluation graph is invoked with. */
  datatype EvaluatorCall = EvaluatorCall(doctorMessage: string, patientHistory: seq<string>)

  datatype EvaluateResult = EvaluateHandled(outcome: Outcome, call: Option<EvaluatorCall>)

  /** The doctor entry appended to the graph input and to the transcript,
      present only for a non-empty message. */
  function NewDoctorTurn(message: string): seq<Message>
  {
    if message != [] then [Human(message)] else []
  }

  function NewDoctorEntry(message: string): seq<JsonMessage>
  {
    if message != [] then [DoctorEntry(message)] else []
  }

  /** The reference behaviour of `chat`. */
  function ChatSpec(req: Request, gen: Generation): Handled
    requires Routed(req)
  {
    if req.httpMethod == "OPTIONS" then Handled(Response(200, NoContent), None)
    else if req.body.None? then Handled(Response(400, ErrorMessage(InvalidJson)), None)
    else
      var userMessage := Strip(req.body.value.userMessage.GetOr(""));
      var messages := req.body.value.messages.GetOr([]);
      if userMessage == [] && messages == [] then
        Handled(Response(200, ChatReply(ChatGreeting, false, [PatientEntry(ChatGreeting)])), None)
      else
        var history := ReadAll(messages, false);
        if history.None? then Handled(Raises, None)
        else ChatAnswer(messages, history.value, userMessage, gen)
  }

  /** A chat turn on a transcript that reads: the patient node runs from no
      revealed symptoms on the history and the message, and the transcript
      is answered with the message and the reply appended. */
  function ChatAnswer(messages: seq<JsonMessage>, history: seq<Message>, userMessage: string, gen: Generation): Handled
  {
    var graphMessages := history + NewDoctorTurn(userMessage);
    var out := PG.Transition(PG.PatientState(graphMessages, [], false), gen);
    var reply := LastContent(out.messages);
    Handled(
      Response(200, ChatReply(reply, out.conversationEnd, messages + NewDoctorEntry(userMessage) + [PatientEntry(reply)])),
      Some(ProviderCall(PatientPersona(false), ProviderHistory(graphMessages))))
  }

  /** The reference behaviour of `evaluate`. */
  function EvaluateSpec(req: Request, evaluation: Evaluation): EvaluateResult
    requires Routed(req)
  {
    if req.httpMethod == "OPTIONS" then EvaluateHandled(Response(200, NoContent), None)
    else if req.body.None? then EvaluateHandled(Response(400, ErrorMessage(InvalidJson)), None)
    else
      var doctorMessage := Strip(req.body.value.doctorMessage.GetOr(""));
      var history := req.body.value.patientHistory.GetOr([]);
      if doctorMessage == [] then EvaluateHandled(Response(400, ErrorMessage(DoctorMessageRequired)), None)
      else
        var call := Some(EvaluatorCall(doctorMessage, history));
        match evaluation
        case EvaluationRaised(e) => EvaluateHandled(Response(500, ErrorMessage("Evaluation failed: " + e)), call)
        case Evaluated(v) => EvaluateHandled(Response(200, EvaluationReply(v)), call)
  }

  /** The reference behaviour of `treatment`. */
  function TreatmentSpec(req: Request, gen: Generation): Handled
    requires Routed(req)
  {
    if req.httpMethod == "OPTIONS" then Handled(Response(200, NoContent), None)
    else if req.body.None? then Handled(Response(400, ErrorMessage(InvalidJson)), None)
    else
      var prescription := Strip(req.body.value.prescription.GetOr(""));
      var messages := req.body.value.messages.GetOr([]);
      var clarificationUsed := req.body.value.clarificationUsed.GetOr(false);
      if prescription == [] && messages == [] then
        Handled(Response(200, TreatmentReply(TreatmentGreeting, false, false, [PatientEntry(TreatmentGreeting)])), None)
      else
        var history := ReadAll(messages, false);
        if history.None? then Handled(Raises, None)
        else TreatmentAnswer(messages, history.value, prescription, clarificationUsed, gen)
  }

  /** A treatment turn on a transcript that reads: the treatment node runs
      with the client's flag on the history and the prescription, and the
      transcript is answered with both appended, with the node's flags. */
  function TreatmentAnswer(messages: seq<JsonMessage>, history: seq<Message>, prescription: string, clarificationUsed: bool, gen: Generation): Handled
  {
    var graphMessages := history + NewDoctorTurn(prescription);
    var out := TG.Transition(TG.TreatmentState(graphMessages, clarificationUsed, false), gen);
    var reply := LastContent(out.messages);
    Handled(
      Response(200, TreatmentReply(reply, out.conversationEnd, out.clarificationUsed,
        messages + NewDoctorEntry(prescription) + [PatientEntry(reply)])),
      Some(ProviderCall(TG.Prompt(clarificationUsed), ProviderHistory(graphMessages))))
  }

  /** `ChatSpec` past the greeting, on a transcript that reads, is the
      turn. */
  lemma ChatSpecAnswers(req: Request, gen: Generation, userMessage: string, messages: seq<JsonMessage>, history: seq<Message>)
    requires req.httpMethod == "POST" && req.body.Some?
    requires userMessage == Strip(req.body.value.userMessage.GetOr(""))
    requires messages == req.body.value.messages.GetOr([])
    requires userMessage != [] || messages != []
    requires ReadAll(messages, false) == Some(history)
    ensures ChatSpec(req, gen) == ChatAnswer(messages, history, userMessage, gen)
  {
  }

  /** `TreatmentSpec` past the greeting, on a transcript that reads, is the
      turn. */
  lemma TreatmentSpecAnswers(req: Request, gen: Generation, prescription: string, messages: seq<JsonMessage>, clarificationUsed: bool, history: seq<Message>)
    requires req.httpMethod == "POST" && req.body.Some?
    requires prescription == Strip(req.body.value.prescription.GetOr(""))
    requires messages == req.body.value.messages.GetOr([])
    requires clarificationUsed == req.body.value.clarificationUsed.GetOr(false)
    requires prescription != [] || messages != []
    requires ReadAll(messages, false) == Some(history)
    ensures TreatmentSpec(req, gen) == TreatmentAnswer(messages, history, prescription, clarificationUsed, gen)
  {
  }

  /** The chat turn's answer, with the reply taken from the node's last
      message. */
  lemma ChatAnswerUnfold(messages: seq<JsonMessage>, history: seq<Message>, userMessage: string, gen: Generation)
    ensures
      var graphMessages := history + NewDoctorTurn(userMessage);
      var out := PG.Transition(PG.PatientState(graphMessages, [], false), gen);
      var reply := out.messages[|out.messages| - 1].content;
      ChatAnswer(messages, history, userMessage, gen) == Handled(
        Response(200, ChatReply(reply, out.conversationEnd, messages + NewDoctorEntry(userMessage) + [PatientEntry(reply)])),
        Some(ProviderCall(PatientPersona(false), ProviderHistory(graphMessages))))
  {
    PG.OneReplyAppended(PG.PatientState(history + NewDoctorTurn(userMessage), [], false), gen);
  }

  /** The treatment turn's answer, with the reply taken from the node's last
      message. */
  lemma TreatmentAnswerUnfold(messages: seq<JsonMessage>, history: seq<Message>, prescription: string, clarificationUsed: bool, gen: Generation)
    ensures
      var graphMessages := history + NewDoctorTurn(prescription);
      var out := TG.Transition(TG.TreatmentState(graphMessages, clarificationUsed, false), gen);
      var reply := out.messages[|out.messages| - 1].content;
      TreatmentAnswer(messages, history, prescription, clarificationUsed, gen) == Handled(
        Response(200, TreatmentReply(reply, out.conversationEnd, out.clarificationUsed,
          messages + NewDoctorEntry(prescription) + [PatientEntry(reply)])),
        Some(ProviderCall(TG.Prompt(clarificationUsed), ProviderHistory(graphMessages))))
  {
    TG.OneReplyAppended(TG.TreatmentState(history + NewDoctorTurn(prescription), clarificationUsed, false), gen);
  }

  /** `chat`. */
  method Chat(req: Request, gen: Generation) returns (r: Handled)
    requires Routed(req)
    ensures r == ChatSpec(req, gen)
  {
    if req.httpMethod == "OPTIONS" {
      return Handled(Response(200, NoContent), None);
    }
    if req.body.None? {
      return Handled(Response(400, ErrorMessage(InvalidJson)), None);
    }
    var body := req.body.value;
    var userMessage := Strip(body.userMessage.GetOr(""));
    var messages := body.messages.GetOr([]);

    if userMessage == [] && messages == [] {
      var greeting := ChatGreeting;
      return Handled(Response(200, ChatReply(greeting, false, [Entry(Some("patient"), Some(greeting))])), None);
    }

    var history := LenientHistory(messages);
    if history.None? {
      return Handled(Raises, None);
    }
    ChatSpecAnswers(req, gen, userMessage, messages, history.value);
    r := AnswerChat(messages, history.value, userMessage, gen);
  }

  /** The tail of `chat` once the transcript is read: the message appended
      when non-empty, the node run, and the transcript extended in place. */
  method AnswerChat(messages: seq<JsonMessage>, history: seq<Message>, userMessage: string, gen: Generation) returns (r: Handled)
    ensures r == ChatAnswer(messages, history, userMessage, gen)
  {
    ChatAnswerUnfold(messages, history, userMessage, gen);
    var graphMessages := history;
    if userMessage != [] {
      graphMessages := graphMessages + [Human(userMessage)];
    }
    assert graphMessages == history + NewDoctorTurn(userMessage);

    var newState, call := PG.PatientNode(PG.PatientState(graphMessages, [], false), gen);
    PG.OneReplyAppended(PG.PatientState(graphMessages, [], false), gen);
    var reply := newState.messages[|newState.messages| - 1].content;

    var transcript := messages;
    if userMessage != [] {
      transcript := transcript + [Entry(Some("doctor"), Some(userMessage))];
    }
    assert transcript == messages + NewDoctorEntry(userMessage);
    transcript := transcript + [Entry(Some("patient"), Some(reply))];

    r := Handled(Response(200, ChatReply(reply, newState.conversationEnd, transcript)), Some(call));
  }

  /** `evaluate`. */
  method Evaluate(req: Request, evaluation: Evaluation) returns (r: EvaluateResult)
    requires Routed(req)
    ensures r == EvaluateSpec(req, evaluation)
  {
    if req.httpMethod == "OPTIONS" {
      return EvaluateHandled(Response(200, NoContent), None);
    }
    if req.body.None? {
      return EvaluateHandled(Response(400, ErrorMessage(InvalidJson)), None);
    }
    var doctorMessage := Strip(req.body.value.doctorMessage.GetOr(""));
    var patientHistory := req.body.value.patientHistory.GetOr([]);

    if doctorMessage == [] {
      return EvaluateHandled(Response(400, ErrorMessage(DoctorMessageRequired)), None);
    }

    var call := EvaluatorCall(doctorMessage, patientHistory);
    match evaluation {
      case EvaluationRaised(e) =>
        return EvaluateHandled(Response(500, ErrorMessage("Evaluation failed: " + e)), Some(call));
      case Evaluated(result) =>
        r := EvaluateHandled(Response(200, EvaluationReply(result)), Some(call));
    }
  }

  /** `treatment`. */
  method Treatment(req: Request, gen: Generation) returns (r: Handled)
    requires Routed(req)
    ensures r == TreatmentSpec(req, gen)
  {
    if req.httpMethod == "OPTIONS" {
      return Handled(Response(200, NoContent), None);
    }
    if req.body.None? {
      return Handled(Response(400, ErrorMessage(InvalidJson)), None);
    }
    var body := req.body.value;
    var prescription := Strip(body.prescription.GetOr(""));
    var messages := body.messages.GetOr([]);
    var clarificationUsed := body.clarificationUsed.GetOr(false);

    if prescription == [] && messages == [] {
      var greeting := TreatmentGreeting;
      return Handled(Response(200, TreatmentReply(greeting, false, false, [Entry(Some("patient"), Some(greeting))])), None);
    }

    var history := LenientHistory(messages);
    if history.None? {
      return Handled(Raises, None);
    }
    TreatmentSpecAnswers(req, gen, prescription, messages, clarificationUsed, history.value);
    r := AnswerTreatment(messages, history.value, prescription, clarificationUsed, gen);
  }

  /** The tail of `treatment` once the transcript is read: the prescription
      appended when non-empty, the node run, and the transcript extended in
      place. */
  method AnswerTreatment(messages: seq<JsonMessage>, history: seq<Message>, prescription: string, clarificationUsed: bool, gen: Generation) returns (r: Handled)
    ensures r == TreatmentAnswer(messages, history, prescription, clarificationUsed, gen)
  {
    TreatmentAnswerUnfold(messages, history, prescription, clarificationUsed, gen);
    var graphMessages := history;
    if prescription != [] {
      graphMessages := graphMessages + [Human(prescription)];
    }
    assert graphMessages == history + NewDoctorTurn(prescription);

    var newState, call := TG.TreatmentNode(TG.TreatmentState(graphMessages, clarificationUsed, false), gen);
    TG.OneReplyAppended(TG.TreatmentState(graphMessages, clarificationUsed, false), gen);
    var reply := newState.messages[|newState.messages| - 1].content;

    var transcript := messages;
    if prescription != [] {
      transcript := transcript + [Entry(Some("doctor"), Some(prescription))];
    }
    assert transcript == messages + NewDoctorEntry(prescription);
    transcript := transcript + [Entry(Some("patient"), Some(reply))];

    r := Handled(Response(200, TreatmentReply(reply, newState.conversationEnd, newState.clarificationUsed, transcript)), call);
  }

  /** A POST whose body parses, shortened to the members the handlers use. */
  predicate Posted(req: Request)
  {
    req.httpMethod == "POST" && req.body.Some?
  }

  /** The transcript a turn returns, sent back, reads as the history the
      node returned. */
  lemma TranscriptReadsBack(messages: seq<JsonMessage>, history: seq<Message>, message: string, reply: string)
    requires ReadAll(messages, false) == Some(history)
    ensures ReadAll(messages + NewDoctorEntry(message) + [PatientEntry(reply)], false) == Some(history + NewDoctorTurn(message) + [Ai(reply)])
  {
    if message != [] {
      ReadAllTurn(messages, history, message, reply, false);
    } else {
      assert messages + NewDoctorEntry(message) == messages;
      assert history + NewDoctorTurn(message) == history;
      assert (messages + [PatientEntry(reply)])[..|messages|] == messages;
    }
  }

  /** An empty stripped message with an empty transcript is answered with
      the greeting, a one-entry patient transcript and
      `conversation_end = false`, without a completion call. */
  lemma ChatGreets(req: Request, gen: Generation)
    requires Posted(req)
    requires Strip(req.body.value.userMessage.GetOr("")) == [] && req.body.value.messages.GetOr([]) == []
    ensures ChatSpec(req, gen) == Handled(
      Response(200, ChatReply(ChatGreeting, false, [Entry(Some("patient"), Some(ChatGreeting))])),
      None)
  {
  }

  /** Past the greeting the transcript is read leniently; the handler raises
      exactly when some entry is not an object. */
  lemma ChatRaisesIffBareEntry(req: Request, gen: Generation)
    requires Posted(req)
    requires Strip(req.body.value.userMessage.GetOr("")) != [] || req.body.value.messages.GetOr([]) != []
    ensures var messages := req.body.value.messages.GetOr([]);
      ChatSpec(req, gen).outcome.Raises? <==> exists i :: 0 <= i < |messages| && messages[i].Bare?
  {
    var messages := req.body.value.messages.GetOr([]);
    ReadAllIff(messages, false);
    if ReadAll(messages, false).Some? {
      forall i | 0 <= i < |messages| ensures !messages[i].Bare? {
        assert LenientMessage(messages[i]).Some?;
      }
    } else {
      var i :| 0 <= i < |messages| && LenientMessage(messages[i]).None?;
      assert messages[i].Bare?;
    }
  }

  /** A chat turn: the completion call sees the client's history followed by
      the stripped message when it is non-empty; the reply is the patient's;
      `conversation_end` is false; and the transcript returned is the one
      received with the doctor entry (for a non-empty message) and the reply
      appended, which reads back as the graph's output history. */
  lemma ChatTurn(req: Request, gen: Generation)
    requires Posted(req)
    requires Strip(req.body.value.userMessage.GetOr("")) != [] || req.body.value.messages.GetOr([]) != []
    requires ReadAll(req.body.value.messages.GetOr([]), false).Some?
    ensures
      var userMessage := Strip(req.body.value.userMessage.GetOr(""));
      var messages := req.body.value.messages.GetOr([]);
      var history := ReadAll(messages, false).value;
      var reply := PG.Reply(gen);
      var h := ChatSpec(req, gen);
      && h.call == Some(ProviderCall(PatientPersona(false), ProviderHistory(history + NewDoctorTurn(userMessage))))
      && h.outcome == Response(200, ChatReply(reply, false, messages + NewDoctorEntry(userMessage) + [PatientEntry(reply)]))
      && ReadAll(h.outcome.payload.messages, false) == Some(history + NewDoctorTurn(userMessage) + [Ai(reply)])
  {
    var userMessage := Strip(req.body.value.userMessage.GetOr(""));
    var messages := req.body.value.messages.GetOr([]);
    var history := ReadAll(messages, false).value;
    var s := PG.PatientState(history + NewDoctorTurn(userMessage), [], false);
    ChatSpecAnswers(req, gen, userMessage, messages, history);
    ChatAnswerUnfold(messages, history, userMessage, gen);
    PG.OneReplyAppended(s, gen);
    PG.ConversationEndPassesThrough(s, gen);
    TranscriptReadsBack(messages, history, userMessage, PG.Reply(gen));
  }

  /** The modelled `chat` and `treatment` answer only 200 or 400 (or raise
      on a transcript that does not read). Their reference functions have no
      branch for an exception from `invoke`. The modelled node is a total
      function of `gen`, and a failure inside its `try` is `Failed`, answered
      with the fallback reply (see `FailedCallAnswered`). */
  lemma NoGraphFailure(req: Request, gen: Generation)
    requires Routed(req)
    ensures ChatSpec(req, gen).outcome.Response? ==> ChatSpec(req, gen).outcome.status in {200, 400}
    ensures TreatmentSpec(req, gen).outcome.Response? ==> TreatmentSpec(req, gen).outcome.status in {200, 400}
  {
    if req.httpMethod == "POST" && req.body.Some? {
      var body := req.body.value;
      var messages := body.messages.GetOr([]);
      var history := ReadAll(messages, false);
      var userMessage := Strip(body.userMessage.GetOr(""));
      if (userMessage != [] || messages != []) && history.Some? {
        ChatSpecAnswers(req, gen, userMessage, messages, history.value);
      }
      var prescription := Strip(body.prescription.GetOr(""));
      if (prescription != [] || messages != []) && history.Some? {
        TreatmentSpecAnswers(req, gen, prescription, messages, body.clarificationUsed.GetOr(false), history.value);
      }
    }
  }

  /** A failed completion call does not reach the handlers' `except`: the
      node answers it with its fallback reply, so `chat` still answers 200
      with the patient's fallback reply, and `treatment` answers 200 with the
      treatment fallback and both flags set. */
  lemma FailedCallAnswered(req: Request)
    requires Posted(req)
    requires ReadAll(req.body.value.messages.GetOr([]), false).Some?
    ensures
      var userMessage := Strip(req.body.value.userMessage.GetOr(""));
      var messages := req.body.value.messages.GetOr([]);
      (userMessage != [] || messages != []) ==>
        ChatSpec(req, Failed).outcome ==
          Response(200, ChatReply(PG.FallbackReply, false, messages + NewDoctorEntry(userMessage) + [PatientEntry(PG.FallbackReply)]))
    ensures
      var prescription := Strip(req.body.value.prescription.GetOr(""));
      var messages := req.body.value.messages.GetOr([]);
      (prescription != [] || messages != []) ==>
        TreatmentSpec(req, Failed).outcome ==
          Response(200, TreatmentReply(TG.FallbackReply, true, true, messages + NewDoctorEntry(prescription) + [PatientEntry(TG.FallbackReply)]))
  {
    var messages := req.body.value.messages.GetOr([]);
    var history := ReadAll(messages, false).value;
    if Strip(req.body.value.userMessage.GetOr("")) != [] || messages != [] {
      ChatTurn(req, Failed);
    }
    var prescription := Strip(req.body.value.prescription.GetOr(""));
    if prescription != [] || messages != [] {
      TreatmentTurn(req, Failed);
      TG.FailureFallback(TG.TreatmentState(history + NewDoctorTurn(prescription), req.body.value.clarificationUsed.GetOr(false), false));
    }
  }

  /** `evaluate` answers 400 without invoking the evaluator exactly when the
      stripped `doctor_message` is empty; otherwise the evaluator is invoked
      with the stripped message and the history, and its exception becomes a
      500 answer. */
  lemma EvaluateRequiresDoctorMessage(req: Request, evaluation: Evaluation)
    requires Posted(req)
    ensures var doctorMessage := Strip(req.body.value.doctorMessage.GetOr(""));
      var e := EvaluateSpec(req, evaluation);
      && (doctorMessage == [] <==> e.call.None?)
      && (doctorMessage == [] ==> e.outcome == Response(400, ErrorMessage(DoctorMessageRequired)))
      && (doctorMessage != [] ==> e.call == Some(EvaluatorCall(doctorMessage, req.body.value.patientHistory.GetOr([]))))
      && (doctorMessage != [] && evaluation.EvaluationRaised? ==>
            e.outcome == Response(500, ErrorMessage("Evaluation failed: " + evaluation.message)))
      && (doctorMessage != [] && evaluation.Evaluated? ==> e.outcome == Response(200, EvaluationReply(evaluation.evaluation)))
  {
    var doctorMessage := Strip(req.body.value.doctorMessage.GetOr(""));
    if doctorMessage == [] {
      assert EvaluateSpec(req, evaluation) == EvaluateHandled(Response(400, ErrorMessage(DoctorMessageRequired)), None);
    } else {
      var call := Some(EvaluatorCall(doctorMessage, req.body.value.patientHistory.GetOr([])));
      match evaluation
      case EvaluationRaised(e) =>
        assert EvaluateSpec(req, evaluation) == EvaluateHandled(Response(500, ErrorMessage("Evaluation failed: " + e)), call);
      case Evaluated(v) =>
        assert EvaluateSpec(req, evaluation) == EvaluateHandled(Response(200, EvaluationReply(v)), call);
    }
  }

  /** An empty stripped prescription with an empty transcript is answered
      with the prescription request and both flags false, without a
      completion call. */
  lemma TreatmentGreets(req: Request, gen: Generation)
    requires Posted(req)
    requires Strip(req.body.value.prescription.GetOr("")) == [] && req.body.value.messages.GetOr([]) == []
    ensures TreatmentSpec(req, gen) == Handled(
      Response(200, TreatmentReply(TreatmentGreeting, false, false, [Entry(Some("patient"), Some(TreatmentGreeting))])),
      None)
  {
  }

  /** A treatment turn: the client's `clarification_used` selects the prompt
      and the flag rule; the answer carries the node's output flags, so a
      used clarification always ends the conversation; the transcript
      returned reads back as the graph's output history. */
  lemma TreatmentTurn(req: Request, gen: Generation)
    requires Posted(req)
    requires Strip(req.body.value.prescription.GetOr("")) != [] || req.body.value.messages.GetOr([]) != []
    requires ReadAll(req.body.value.messages.GetOr([]), false).Some?
    ensures
      var prescription := Strip(req.body.value.prescription.GetOr(""));
      var messages := req.body.value.messages.GetOr([]);
      var used := req.body.value.clarificationUsed.GetOr(false);
      var history := ReadAll(messages, false).value;
      var out := TG.Transition(TG.TreatmentState(history + NewDoctorTurn(prescription), used, false), gen);
      var reply := TG.Reply(gen);
      var h := TreatmentSpec(req, gen);
      && h.call == Some(ProviderCall(TG.Prompt(used), ProviderHistory(history + NewDoctorTurn(prescription))))
      && h.outcome == Response(200, TreatmentReply(reply, out.conversationEnd, out.clarificationUsed,
           messages + NewDoctorEntry(prescription) + [PatientEntry(reply)]))
      && (used ==> h.outcome.payload.conversationEnd && h.outcome.payload.clarificationUsed)
      && ReadAll(h.outcome.payload.messages, false) == Some(history + NewDoctorTurn(prescription) + [Ai(reply)])
  {
    var prescription := Strip(req.body.value.prescription.GetOr(""));
    var messages := req.body.value.messages.GetOr([]);
    var used := req.body.value.clarificationUsed.GetOr(false);
    var history := ReadAll(messages, false).value;
    var s := TG.TreatmentState(history + NewDoctorTurn(prescription), used, false);
    TreatmentSpecAnswers(req, gen, prescription, messages, used, history);
    TreatmentAnswerUnfold(messages, history, prescription, used, gen);
    TG.OneReplyAppended(s, gen);
    TG.FlagRule(s, gen);
    TranscriptReadsBack(messages, history, prescription, TG.Reply(gen));
  }
}
