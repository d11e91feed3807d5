/** The chat messages the two graph nodes work on, the outcome of the one
    LLM completion call of a turn, and the request that call is given. */
module Messages {

  /** LangChain's `HumanMessage` (written by the doctor) and `AIMessage`
      (written by the simulated patient). */
  datatype Message = Human(content: string) | Ai(content: string)

  /** What the completion call of a turn yields: the text of the first
      choice, or `Failed` when the call raised (a network or API error, or a
      choice without content). */
  datatype Generation = Generated(text: string) | Failed

  /** One chat message in the provider's format: `{"role": ..., "content": ...}`. */
  datatype ProviderMessage = ProviderMessage(role: string, content: string)

  /** The system prompts. Their text is not modelled, only which one is sent. */
  datatype SystemPrompt =
    | PatientPersona(consultationEnding: bool)  // the symptom-describing patient; amended when the consultation is ending
    | ReviewPrescription                        // read the prescription, ask one question if unclear
    | ConfirmUnderstanding                      // the question was answered: thank, confirm, close

  /** The request of one completion call: the system prompt, then the history. */
  datatype ProviderCall = ProviderCall(system: SystemPrompt, history: seq<ProviderMessage>)

  function ProviderRole(m: Message): string
  {
    if m.Human? then "user" else "assistant"
  }

  function ToProvider(m: Message): ProviderMessage
  {
    ProviderMessage(ProviderRole(m), m.content)
  }

  /** Reads a provider message back as a chat message. */
  function FromProvider(p: ProviderMessage): Message
  {
    if p.role == "user" then Human(p.content) else Ai(p.content)
  }

  /** The history in the provider's format, message by message. */
  function ProviderHistory(messages: seq<Message>): (h: seq<ProviderMessage>)
    ensures |h| == |messages|
  {
    seq(|messages|, i requires 0 <= i < |messages| => ToProvider(messages[i]))
  }

  /** `messages[-1].content`, read after a node has appended its reply (so
      the empty case never arises). */
  function LastContent(messages: seq<Message>): string
  {
    if messages == [] then "" else messages[|messages| - 1].content
  }

  /** The conversion loses nothing: reading every provider message back
      gives the original history, in order. */
  lemma ProviderHistoryRoundTrip(messages: seq<Message>)
    ensures seq(|messages|, i requires 0 <= i < |messages| => FromProvider(ProviderHistory(messages)[i])) == messages
  {
  }

  /** The loop that builds `groq_messages`: one provider message per chat
      message, in the same order, `HumanMessage` as "user" and `AIMessage`
      as "assistant". */
  method ToProviderMessages(messages: seq<Message>) returns (out: seq<ProviderMessage>)
    ensures |out| == |messages|
    ensures forall i :: 0 <= i < |messages| ==>
      out[i].content == messages[i].content &&
      (out[i].role == "user" <==> messages[i].Human?) &&
      (out[i].role == "assistant" <==> messages[i].Ai?)
    ensures out == ProviderHistory(messages)
  {
    out := [];
    for i := 0 to |messages|
      invariant out == ProviderHistory(messages[..i])
    {
      assert messages[..i + 1] == messages[..i] + [messages[i]];
      if messages[i].Human? {
        out := out + [ProviderMessage("user", messages[i].content)];
      } else {
        out := out + [ProviderMessage("assistant", messages[i].content)];
      }
    }
    assert messages[..|messages|] == messages;
  }
}
