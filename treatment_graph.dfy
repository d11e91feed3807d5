/** The treatment node: the simulated patient receives a prescription, may
    ask one clarifying question, and then accepts. */
module TreatmentGraph {
  import opened Wrappers
  import opened Text
  import opened Messages

  datatype TreatmentState = TreatmentState(messages: seq<Message>, clarificationUsed: bool, conversationEnd: bool)

  /** The substrings whose presence in the lowercase reply marks it as a
      question. */
  const ClarificationIndicators: seq<string> := ["?", "how", "when", "should i", "do i", "which", "what"]

  /** The reply used when the completion call fails. */
  const FallbackReply: string := "Thank you doctor, I understand and will follow your advice."

  /** The prescription-review prompt until the one clarification is used,
      the confirm-and-close prompt afterwards. */
  function Prompt(clarificationUsed: bool): SystemPrompt
  {
    if !clarificationUsed then ReviewPrescription else ConfirmUnderstanding
  }

  /** The patient's reply: the generated text without surrounding
      whitespace, or the fallback. */
  function Reply(gen: Generation): string
  {
    match gen
    case Generated(text) => Strip(text)
    case Failed => FallbackReply
  }

  /** The reply asks something: one of the indicators occurs in its
      lowercase form. */
  predicate AskedQuestion(reply: string)
  {
    ContainsAny(Lower(reply), ClarificationIndicators)
  }

  /** The state the node returns. */
  function Transition(s: TreatmentState, gen: Generation): TreatmentState
  {
    if s.conversationEnd then s
    else
      var reply := Reply(gen);
      var used := gen.Failed? || s.clarificationUsed;
      var (used', end') :=
        if used then (used, true)
        else if AskedQuestion(reply) then (true, false)
        else (used, true);
      TreatmentState(s.messages + [Ai(reply)], used', end')
  }

  /** `treatment_node`: a finished conversation is returned as it is, with no
      completion call; otherwise one call is made with the prompt that
      `clarification_used` selects and the whole history. */
  method TreatmentNode(s: TreatmentState, gen: Generation) returns (out: TreatmentState, call: Option<ProviderCall>)
    ensures out == Transition(s, gen)
    ensures s.conversationEnd ==> call == None
    ensures !s.conversationEnd ==> call == Some(ProviderCall(Prompt(s.clarificationUsed), ProviderHistory(s.messages)))
  {
    var messages, clarificationUsed, conversationEnd := s.messages, s.clarificationUsed, s.conversationEnd;
    if conversationEnd {
      return s, None;
    }
    var history := ToProviderMessages(messages);
    var prompt := Prompt(clarificationUsed);
    call := Some(ProviderCall(prompt, history));

    var reply: string;
    match gen {
      case Generated(text) =>
        reply := Strip(text);
      case Failed =>
        reply := FallbackReply;
        clarificationUsed := true;
        conversationEnd := true;
    }

    var askedQuestion := AskedQuestion(reply);
    if clarificationUsed {
      conversationEnd := true;
    } else if askedQuestion {
      clarificationUsed := true;
      conversationEnd := false;
    } else {
      conversationEnd := true;
    }
    out := TreatmentState(messages + [Ai(reply)], clarificationUsed, conversationEnd);
  }

  /** A finished conversation is returned unchanged. */
  lemma EndedStateUntouched(s: TreatmentState, gen: Generation)
    requires s.conversationEnd
    ensures Transition(s, gen) == s
  {
  }

  /** The classifier, written out: the reply asks something exactly when its
      lowercase form contains "?", "how", "when", "should i", "do i",
      "which" or "what". */
  lemma AskedQuestionIff(reply: string)
    ensures AskedQuestion(reply) <==>
      var r := Lower(reply);
      || Contains(r, "?") || Contains(r, "how") || Contains(r, "when")
      || Contains(r, "should i") || Contains(r, "do i") || Contains(r, "which")
      || Contains(r, "what")
  {
    var r := Lower(reply);
    if AskedQuestion(reply) {
      var k :| 0 <= k < |ClarificationIndicators| && Contains(r, ClarificationIndicators[k]);
      assert k in {0, 1, 2, 3, 4, 5, 6};
    }
    if Contains(r, "?") { assert Contains(r, ClarificationIndicators[0]); }
    if Contains(r, "how") { assert Contains(r, ClarificationIndicators[1]); }
    if Contains(r, "when") { assert Contains(r, ClarificationIndicators[2]); }
    if Contains(r, "should i") { assert Contains(r, ClarificationIndicators[3]); }
    if Contains(r, "do i") { assert Contains(r, ClarificationIndicators[4]); }
    if Contains(r, "which") { assert Contains(r, ClarificationIndicators[5]); }
    if Contains(r, "what") { assert Contains(r, ClarificationIndicators[6]); }
  }

  /** Once the clarification is used, the next turn ends the conversation,
      whatever the reply says. */
  lemma SecondTurnEnds(s: TreatmentState, gen: Generation)
    requires !s.conversationEnd && s.clarificationUsed
    ensures Transition(s, gen).conversationEnd && Transition(s, gen).clarificationUsed
  {
  }

  /** A first reply that asks a question uses up the clarification and keeps
      the conversation open. */
  lemma FirstQuestionKeepsOpen(s: TreatmentState, text: string)
    requires !s.conversationEnd && !s.clarificationUsed
    requires AskedQuestion(Strip(text))
    ensures Transition(s, Generated(text)).clarificationUsed
    ensures !Transition(s, Generated(text)).conversationEnd
  {
  }

  /** A first reply without a question accepts the prescription: the
      conversation ends and the clarification stays unused. */
  lemma AcceptedWithoutQuestion(s: TreatmentState, text: string)
    requires !s.conversationEnd && !s.clarificationUsed
    requires !AskedQuestion(Strip(text))
    ensures Transition(s, Generated(text)).conversationEnd
    ensures !Transition(s, Generated(text)).clarificationUsed
  {
  }

  /** A failed completion call gives the fallback reply and sets both flags. */
  lemma FailureFallback(s: TreatmentState)
    requires !s.conversationEnd
    ensures Transition(s, Failed).messages == s.messages + [Ai("Thank you doctor, I understand and will follow your advice.")]
    ensures Transition(s, Failed).clarificationUsed && Transition(s, Failed).conversationEnd
  {
  }

  /** The whole flag rule of a turn: the conversation ends exactly when the
      clarification was already used, the call failed, or the reply asks
      nothing; the clarification is used afterwards exactly when it was
      before, the call failed, or the reply asks something. So one flag is
      always set and `clarification_used` never goes back to false. */
  lemma FlagRule(s: TreatmentState, gen: Generation)
    requires !s.conversationEnd
    ensures var r := Transition(s, gen);
      && (r.conversationEnd <==> (s.clarificationUsed || gen.Failed? || !AskedQuestion(Reply(gen))))
      && (r.clarificationUsed <==> (s.clarificationUsed || gen.Failed? || AskedQuestion(Reply(gen))))
      && (r.clarificationUsed || r.conversationEnd)
      && (s.clarificationUsed ==> r.clarificationUsed)
  {
  }

  /** A turn appends exactly one patient message, holding the reply. */
  lemma OneReplyAppended(s: TreatmentState, gen: Generation)
    requires !s.conversationEnd
    ensures Transition(s, gen).messages == s.messages + [Ai(Reply(gen))]
  {
  }
}
