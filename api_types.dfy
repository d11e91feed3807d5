/** The JSON shapes of the stateless endpoints, and the two ways they read
    a client transcript into chat messages. */
module ApiTypes {
  import opened Wrappers
  import opened Messages

  /** One entry of a client transcript: an object with optional "role" and
      "content" string members, or a bare string. */
  datatype JsonMessage = Entry(role: Option<string>, content: Option<string>) | Bare(text: string)

  /** The members of a request body the handlers read; `None` is a missing
      member. */
  datatype Body = Body(
    userMessage: Option<string>,
    messages: Option<seq<JsonMessage>>,
    doctorMessage: Option<string>,
    patientHistory: Option<seq<string>>,
    prescription: Option<string>,
    clarificationUsed: Option<bool>)

  /** An HTTP request: its method, and its body, or `None` when the body is
      not valid JSON. */
  datatype Request = Request(httpMethod: string, body: Option<Body>)

  /** The JSON object a response carries. */
  datatype Payload =
    | NoContent
    | ErrorMessage(error: string)
    | ChatReply(reply: string, conversationEnd: bool, messages: seq<JsonMessage>)
    | TreatmentReply(patientReply: string, conversationEnd: bool, clarificationUsed: bool, messages: seq<JsonMessage>)
    | EvaluationReply(evaluation: string)

  /** What a handler does with a request: a response with a status code, or
      an exception that escapes the handler. */
  datatype Outcome = Response(status: int, payload: Payload) | Raises

  /** A handler's outcome and the completion call it made, if any. */
  datatype Handled = Handled(outcome: Outcome, call: Option<ProviderCall>)

  const InvalidJson: string := "Invalid JSON body"

  function DoctorEntry(content: string): JsonMessage
  {
    Entry(Some("doctor"), Some(content))
  }

  function PatientEntry(content: string): JsonMessage
  {
    Entry(Some("patient"), Some(content))
  }

  /** The transcript entry a chat message is written back as. */
  function ToJson(m: Message): (j: JsonMessage)
    ensures j.Entry? && j.content == Some(m.content)
    ensures j.role == Some(if m.Human? then "doctor" else "patient")
  {
    if m.Human? then DoctorEntry(m.content) else PatientEntry(m.content)
  }

  /** Reading an entry with `m.get("role")` and `m.get("content", "")`: the
      role "doctor" is the doctor's, any other role or none is the
      patient's, and missing content is empty. A bare string has no `get`. */
  function LenientMessage(m: JsonMessage): Option<Message>
  {
    match m
    case Bare(_) => None
    case Entry(role, content) =>
      Some(if role == Some("doctor") then Human(content.GetOr("")) else Ai(content.GetOr("")))
  }

  /** Reading an entry with `m["role"]` and `m["content"]`: both members
      must be there. */
  function StrictMessage(m: JsonMessage): Option<Message>
  {
    match m
    case Bare(_) => None
    case Entry(role, content) =>
      if role.None? || content.None? then None
      else Some(if role.value == "doctor" then Human(content.value) else Ai(content.value))
  }

  /** A whole transcript read entry by entry, strictly or leniently; `None`
      when some entry cannot be read. */
  function ReadAll(ms: seq<JsonMessage>, strict: bool): (r: Option<seq<Message>>)
    ensures r.Some? ==> |r.value| == |ms|
  {
    if ms == [] then Some([])
    else
      var front := ReadAll(ms[..|ms| - 1], strict);
      var last := if strict then StrictMessage(ms[|ms| - 1]) else LenientMessage(ms[|ms| - 1]);
      if front.None? || last.None? then None else Some(front.value + [last.value])
  }

  /** A transcript is read exactly when each of its entries is, and then
      message by message in order. */
  lemma {:induction false} ReadAllIff(ms: seq<JsonMessage>, strict: bool)
    ensures var read := (m: JsonMessage) => if strict then StrictMessage(m) else LenientMessage(m);
      && (ReadAll(ms, strict).Some? <==> forall i :: 0 <= i < |ms| ==> read(ms[i]).Some?)
      && (ReadAll(ms, strict).Some? ==> forall i :: 0 <= i < |ms| ==> ReadAll(ms, strict).value[i] == read(ms[i]).value)
  {
    if ms != [] {
      var front := ms[..|ms| - 1];
      ReadAllIff(front, strict);
      assert forall i :: 0 <= i < |front| ==> front[i] == ms[i];
    }
  }

  /** Reading distributes over concatenation. */
  lemma {:induction false} ReadAllAppend(a: seq<JsonMessage>, b: seq<JsonMessage>, strict: bool)
    ensures ReadAll(a + b, strict) ==
      if ReadAll(a, strict).None? || ReadAll(b, strict).None? then None
      else Some(ReadAll(a, strict).value + ReadAll(b, strict).value)
  {
    if b == [] {
      assert a + b == a;
      if ReadAll(a, strict).Some? {
        assert ReadAll(a, strict).value + [] == ReadAll(a, strict).value;
      }
    } else {
      var front := b[..|b| - 1];
      assert (a + b)[..|a + b| - 1] == a + front;
      assert (a + b)[|a + b| - 1] == b[|b| - 1];
      ReadAllAppend(a, front, strict);
      var ra, rf := ReadAll(a, strict), ReadAll(front, strict);
      var last := if strict then StrictMessage(b[|b| - 1]) else LenientMessage(b[|b| - 1]);
      if ra.Some? && rf.Some? && last.Some? {
        assert ra.value + rf.value + [last.value] == ra.value + (rf.value + [last.value]);
      }
    }
  }

  /** Chat messages written back as transcript entries. */
  function ToJsonAll(ms: seq<Message>): (js: seq<JsonMessage>)
    ensures |js| == |ms|
  {
    seq(|ms|, i requires 0 <= i < |ms| => ToJson(ms[i]))
  }

  /** Entries written back from chat messages read back as the same
      messages, whichever way they are read. */
  lemma {:induction false} ReadAllToJson(ms: seq<Message>, strict: bool)
    ensures ReadAll(ToJsonAll(ms), strict) == Some(ms)
  {
    var js := ToJsonAll(ms);
    if ms != [] {
      var front := ms[..|ms| - 1];
      ReadAllToJson(front, strict);
      assert js[..|js| - 1] == ToJsonAll(front);
      assert ms == front + [ms[|ms| - 1]];
    }
  }

  /** A readable transcript extended with entries written back from chat
      messages reads as its history extended with those messages. */
  lemma ReadAllExtend(ms: seq<JsonMessage>, history: seq<Message>, added: seq<Message>, strict: bool)
    requires ReadAll(ms, strict) == Some(history)
    ensures ReadAll(ms + ToJsonAll(added), strict) == Some(history + added)
  {
    ReadAllAppend(ms, ToJsonAll(added), strict);
    ReadAllToJson(added, strict);
  }

  /** A readable transcript extended with a doctor entry and a patient
      entry reads as its history extended with the two messages. */
  lemma ReadAllTurn(ms: seq<JsonMessage>, history: seq<Message>, message: string, reply: string, strict: bool)
    requires ReadAll(ms, strict) == Some(history)
    ensures ReadAll(ms + [DoctorEntry(message)] + [PatientEntry(reply)], strict) == Some(history + [Human(message)] + [Ai(reply)])
  {
    var withDoctor := ms + [DoctorEntry(message)];
    assert withDoctor[..|withDoctor| - 1] == ms;
    var withReply := withDoctor + [PatientEntry(reply)];
    assert withReply[..|withReply| - 1] == withDoctor;
  }

  /** The conversion loop of `api/index.py`. */
  method LenientHistory(ms: seq<JsonMessage>) returns (r: Option<seq<Message>>)
    ensures r == ReadAll(ms, false)
  {
    var graphMessages: seq<Message> := [];
    for i := 0 to |ms|
      invariant ReadAll(ms[..i], false) == Some(graphMessages)
    {
      assert ms[..i + 1][..i] == ms[..i];
      match ms[i] {
        case Bare(_) =>
          ReadAllAppend(ms[..i + 1], ms[i + 1..], false);
          assert ms[..i + 1] + ms[i + 1..] == ms;
          return None;
        case Entry(role, content) =>
          if role == Some("doctor") {
            graphMessages := graphMessages + [Human(content.GetOr(""))];
          } else {
            graphMessages := graphMessages + [Ai(content.GetOr(""))];
          }
      }
    }
    assert ms[..|ms|] == ms;
    r := Some(graphMessages);
  }

  /** The conversion loop of `api/chat.py` and `api/treatment.py`. */
  method StrictHistory(ms: seq<JsonMessage>) returns (r: Option<seq<Message>>)
    ensures r == ReadAll(ms, true)
  {
    var graphMessages: seq<Message> := [];
    for i := 0 to |ms|
      invariant ReadAll(ms[..i], true) == Some(graphMessages)
    {
      assert ms[..i + 1][..i] == ms[..i];
      var m := ms[i];
      if m.Bare? || m.role.None? || m.content.None? {
        ReadAllAppend(ms[..i + 1], ms[i + 1..], true);
        assert ms[..i + 1] + ms[i + 1..] == ms;
        return None;
      }
      if m.role.value == "doctor" {
        graphMessages := graphMessages + [Human(m.content.value)];
      } else {
        graphMessages := graphMessages + [Ai(m.content.value)];
      }
    }
    assert ms[..|ms|] == ms;
    r := Some(graphMessages);
  }
}
