# Patient chatbot core, modelled in Dafny

The system is a training chatbot for doctors. A simulated patient, driven by
an LLM, describes its symptoms in a consultation. A second simulated patient
receives a prescription, may ask one clarifying question, and then accepts.
This project models the core of that system and proves what it does:

- **The two graph nodes.** `patient_node` makes one completion call, falls
  back to a fixed reply when the call fails, and scans the lowercase reply
  for symptom keywords. `treatment_node` short-circuits an ended
  conversation, picks one of two prompts, and classifies the reply as a
  question or not. It then applies the flag rule for `clarification_used`
  and `conversation_end`. Both nodes append exactly one patient message.
- **The two session stores.** Each is a map from session id to
  messages, revealed symptoms and the end flag, with `create_session`,
  `get_session` and `reset_session`. One deletes after a membership test,
  the other with `dict.pop`.
- **The stateful backend.** `chat` fetches the session the request names,
  or creates one when it names none or an unknown one. `treatment` never
  creates a session: it answers "No active session found." without an id
  and "Session expired." for an unknown one. On a stored live session, both
  append the doctor's text in place, run one node and overwrite the stored
  fields. `treatment` deletes the session when the node ends the
  conversation.
- **The stateless endpoints.** These are the Flask `chat`, `evaluate` and
  `treatment` of `api/index.py`, and the serverless handlers of
  `api/chat.py` and `api/treatment.py`. Each `chat` and `treatment` receives
  the whole client transcript, reads it into chat messages, runs one node,
  and returns the transcript with the new entries appended. `evaluate`
  takes a doctor message and the patient history, hands them to the
  evaluator graph, and returns only that graph's evaluation (or a 400 or
  500 error), with no transcript.

The LLM call is a parameter `gen: Generation`, either the generated text or
`Failed`. The nodes also report the completion request they would send (the
system prompt chosen and the history in the provider's role format), so
"no generation happens" is a statement about that value. The uuid of a new
session is a parameter `freshId` that must not name a stored session.

Modules follow the files:

| module | file |
|---|---|
| `Wrappers` | optional values (`dict.get` with a default) |
| `Text` | `str.strip`, `str.lower`, the substring test ([text.dfy](text.dfy)) |
| `Messages` | chat messages, the role conversion, the completion request |
| `TreatmentGraph` | `graph/treatment_graph.py` |
| `PatientGraph` | `graph/patient_graph.py` |
| `SessionManager` | `utils/session_manager.py` |
| `BackendSessionManager` | `backend/utils/session_manager.py` |
| `BackendApp` | `backend/app.py` |
| `ApiTypes` | the JSON request, response and transcript shapes of the stateless endpoints |
| `ApiIndex` | `api/index.py` |
| `ApiChat` | `api/chat.py` |
| `ApiTreatment` | `api/treatment.py` |

Every stateful operation is proved against a reference function. For a
node that function is `Transition`, for the backend `ChatStep` and
`TreatmentStep`, and for a handler its `…Spec`. The properties the system
promises are then lemmas about those functions. Some of them are
end-to-end:
- a stateful chat session never ends (`BackendApp.ChatNeverEnds`);
- no stored session is ever ended, so the ended-session branches of the
  backend's `chat` and `treatment` (`BackendApp.ChatEndedSession`,
  `BackendApp.TreatmentEndedSession`) cannot be reached from the empty
  store (`BackendApp.EndedBranchesUnreachable`);
- a backend treatment turn ends exactly when the call failed or the reply
  asks nothing (`BackendApp.TreatmentLiveTurn`);
- a stateless treatment client that sends back what it receives gets at
  most one clarifying question (`ApiTreatment.AtMostOneClarification`).

`backend/app.py` imports `utils.session_manager`, which resolves to either
copy of the store depending on the directory the server starts in. The
backend is modelled over `SessionManager`;
`BackendSessionManager.PopMatchesRemoved` proves that the other copy's
reset leaves the same store.

## Model

| member | source | states |
|---|---|---|
| TreatmentGraph.Transition | graph/treatment_graph.py:19-96 | definition: the state `treatment_node` returns for a given outcome of the call |
| PatientGraph.NewSymptoms | graph/patient_graph.py:93-98 | definition: the table's symptoms not yet revealed with a keyword in the lowercase reply, in table order |
| PatientGraph.Transition | graph/patient_graph.py:19-104 | definition: the state `patient_node` returns for a given outcome of the call |
| BackendApp.Serve | backend/app.py:53-78 | definition: a chat request served from one stored session, canned on an ended one, otherwise one patient turn written back |
| BackendApp.ChatStep | backend/app.py:39-78 | definition: the store, answer and call of `chat`, served from the named session or a new one |
| BackendApp.TreatmentStep | backend/app.py:99-142 | definition: the store, answer and call of `treatment`, with its four branches |
| ApiTypes.LenientMessage | api/index.py:43-46 | definition: an entry read with `m.get`, "doctor" to a doctor message and anything else to a patient one, a missing content read as "" |
| ApiTypes.StrictMessage | api/chat.py:44-47 | definition: an entry read with `m["role"]` and `m["content"]`, unreadable when either is missing |
| ApiIndex.ChatSpec | api/index.py:19-70 | definition: the answer and call of `chat` |
| ApiIndex.EvaluateSpec | api/index.py:74-100 | definition: the answer and evaluator call of `evaluate` for a given evaluator outcome |
| ApiIndex.TreatmentSpec | api/index.py:104-156 | definition: the answer and call of `treatment` |
| ApiChat.HandleWith | api/chat.py:7-73 | definition: `handler` with the greeting's transcript entry as a parameter |
| ApiChat.HandleSpec | api/chat.py:7-73 | definition: `handler` as written, with the bare-string greeting entry |
| ApiChat.HandleCorrectedSpec | api/chat.py:29-39 | definition: `handler` with the greeting written as a patient entry |
| ApiTreatment.HandleSpec | api/treatment.py:7-78 | definition: the answer and call of `handler` |
| ApiIndex.ChatAnswer | api/index.py:40-70 | definition: a chat turn on a readable transcript, the node run on the history plus the non-empty message and the transcript answered with the new entries |
| ApiIndex.TreatmentAnswer | api/index.py:126-156 | definition: a treatment turn on a readable transcript, the node run with the client's flag and its flags answered |
| ApiChat.Turn | api/chat.py:50-73 | definition: the serverless chat turn, the message and the reply appended to the transcript |
| ApiTreatment.Turn | api/treatment.py:54-78 | definition: the serverless treatment turn, the prescription and the reply appended, with the node's flags |
| TreatmentGraph.AskedQuestion | graph/treatment_graph.py:78-79 | definition: some clarification indicator occurs in the lowercase reply |
| TreatmentGraph.Reply | graph/treatment_graph.py:63-75 | definition: the stripped generated text, or the treatment fallback when the call fails |
| TreatmentGraph.Prompt | graph/treatment_graph.py:33-61 | definition: the review prompt while the clarification is unused, the confirmation prompt after |
| PatientGraph.Reply | graph/patient_graph.py:71-84 | definition: the stripped generated text, or the patient fallback when the call fails |
| SessionManager.Created | utils/session_manager.py:13-17 | definition: the store with the empty session written under the id |
| SessionManager.Removed | utils/session_manager.py:27-28 | definition: the store without the id when it is stored, unchanged otherwise |
| BackendSessionManager.Popped | backend/utils/session_manager.py:18 | definition: `dict.pop(id, None)`, the store without the id |
| Messages.ProviderRole | graph/treatment_graph.py:28-31 | definition: "user" for a doctor message, "assistant" for a patient one |
| Messages.ToProvider | graph/treatment_graph.py:28-31 | definition: one chat message in the provider's role/content format |
| Text.Lower | graph/treatment_graph.py:79 | definition: `str.lower()`, each character replaced by its lowercase form |
| Text.Contains | graph/patient_graph.py:97 | definition: Python's substring test `needle in text` |
| Text.ContainsAny | graph/patient_graph.py:97 | definition: `any(needle in text for needle in needles)` |
| BackendApp.CorrectedTreatmentStep | backend/app.py:121-136 | definition: `treatment` with the clarification flag kept per session, the stored flag passed to the node and its result stored back |
| Wrappers.Option.GetOr | api/index.py:28-29 | the stored value when present, the default when the key is missing |
| Text.SpaceFrom | graph/treatment_graph.py:70 | the index of the first non-whitespace character at or after `k` (or the end), with only whitespace skipped |
| Text.SpaceUntil | graph/treatment_graph.py:70 | the index just past the last non-whitespace character before `k` (or 0), with only whitespace skipped |
| Text.Strip | graph/treatment_graph.py:70 | `str.strip()`: the infix of the input between its leading and trailing whitespace, starting and ending with non-whitespace, empty exactly when the input is all whitespace |
| Text.StripIdempotent | graph/treatment_graph.py:70 | stripping a stripped string changes nothing |
| Text.LowerChar | graph/treatment_graph.py:79 | `str.lower()` of one character is never empty |
| Text.LowerCons | graph/treatment_graph.py:79 | lowering a string lowers its first character, then the rest |
| Text.LowerPointwise | graph/patient_graph.py:94 | on a string without U+0130, lowering keeps the length and maps each character to its lowercase form |
| Text.LowerCharLowersTo | graph/patient_graph.py:94 | the lowercase form of a character other than U+0130 starts with a character it lowers to |
| Text.AbsentChar | graph/patient_graph.py:97 | a keyword with a character the text lacks does not occur in it |
| Text.AbsentPair | graph/patient_graph.py:97 | a keyword with two adjacent characters that never stand side by side in the text does not occur in it |
| Text.NoneLowersIntoAppend | graph/patient_graph.py:94 | two strings none of whose characters lowers into a set, joined, have none either |
| Text.LowerAvoids | graph/patient_graph.py:94 | no character of the set occurs in the lowercase form of such a string |
| Text.NoLowerPairAppend | graph/patient_graph.py:94 | joining two strings without a lowercase pair is free of it when the first does not end in the pair's first letter |
| Text.NoLowerPairWithout | graph/patient_graph.py:94 | a string with no character lowering to `a` has no pair starting with `a` |
| Text.LowerAbsentPair | graph/patient_graph.py:94-97 | a keyword containing a pair the string never forms after lowering does not occur in its lowercase form |
| Messages.ProviderHistory | graph/patient_graph.py:25-30 | the history in provider format has one message per chat message |
| Messages.ProviderHistoryRoundTrip | graph/patient_graph.py:25-30 | reading each provider message back gives the original history in order, so the conversion loses nothing |
| Messages.ToProviderMessages | graph/treatment_graph.py:28-31 | the conversion loop: one provider message per chat message, same order and content, "user" exactly for doctor messages and "assistant" exactly for patient ones |
| TreatmentGraph.TreatmentNode | graph/treatment_graph.py:19-96 | `treatment_node` returns the reference transition; no completion call on an ended conversation, otherwise one call with the prompt `clarification_used` selects and the whole history |
| TreatmentGraph.EndedStateUntouched | graph/treatment_graph.py:24-25 | an ended conversation is returned unchanged |
| TreatmentGraph.AskedQuestionIff | graph/treatment_graph.py:78-79 | the reply asks something exactly when its lowercase form contains "?", "how", "when", "should i", "do i", "which" or "what" |
| TreatmentGraph.SecondTurnEnds | graph/treatment_graph.py:81-83 | with the clarification already used, the turn ends the conversation whatever the reply says |
| TreatmentGraph.FirstQuestionKeepsOpen | graph/treatment_graph.py:84-87 | an unused clarification and a question in the reply: clarification used, conversation open |
| TreatmentGraph.AcceptedWithoutQuestion | graph/treatment_graph.py:88-90 | an unused clarification and no question: conversation ended, clarification still unused |
| TreatmentGraph.FailureFallback | graph/treatment_graph.py:71-75 | a failed call appends "Thank you doctor, I understand and will follow your advice." and sets both flags |
| TreatmentGraph.FlagRule | graph/treatment_graph.py:81-95 | both directions of both flag rules; afterwards one flag is always set, and a used clarification stays used |
| TreatmentGraph.OneReplyAppended | graph/treatment_graph.py:92-93 | the output messages are the input followed by exactly one patient message holding the reply |
| PatientGraph.ScanSymptoms | graph/patient_graph.py:93-98 | the scan loop collects exactly the table's symptoms not yet revealed with a keyword in the lowercase reply, in table order |
| PatientGraph.LastDoctorMessage | graph/patient_graph.py:33-37 | the reversed scan finds the lowercased content of the last doctor message, or none when every message is the patient's |
| PatientGraph.PatientNode | graph/patient_graph.py:19-104 | `patient_node` returns the reference transition and makes one completion call, with the persona prompt (amended when ending) and the whole history |
| PatientGraph.NewSymptomIff | graph/patient_graph.py:93-98 | a symptom is newly added exactly when it is not yet revealed and one of its keywords occurs in the lowercase reply |
| PatientGraph.Symptoms | graph/patient_graph.py:87-91 | the symptom names of the table, row by row |
| PatientGraph.NewSymptomsInTableOrder | graph/patient_graph.py:87-98 | the new symptoms appear in table order |
| PatientGraph.SubsequenceOfShorter | graph/patient_graph.py:93-98 | a subsequence of a list minus its last element is a subsequence of the list |
| PatientGraph.SubsequenceDropLast | graph/patient_graph.py:93-98 | dropping the last element of a subsequence leaves a subsequence |
| PatientGraph.NewSymptomsDistinct | graph/patient_graph.py:93-98 | a table with distinct symptoms yields distinct new symptoms |
| PatientGraph.TableSymptomsDistinct | graph/patient_graph.py:87-91 | the table names headache, fatigue and nausea, in that order, each once |
| PatientGraph.OneReplyAppended | graph/patient_graph.py:101 | the output messages are the input plus one patient message holding the reply |
| PatientGraph.ConversationEndPassesThrough | graph/patient_graph.py:100-104 | the output `conversation_end` is the input's |
| PatientGraph.RevealedSymptomsGrow | graph/patient_graph.py:102 | the old revealed symptoms are a prefix of the new ones; what is added is in table order and was not revealed before |
| PatientGraph.NoDuplicateSymptoms | graph/patient_graph.py:87-102 | revealed symptoms without duplicates stay without duplicates |
| PatientGraph.FallbackOpeningAvoids | graph/patient_graph.py:84 | no character of the fallback reply's words before "that?" lowers into i, f, x, n, q or h |
| PatientGraph.FallbackAvoidsLetters | graph/patient_graph.py:84 | no character of the fallback reply lowers into i, f, x, n or q |
| PatientGraph.FallbackLowerAvoidsLetters | graph/patient_graph.py:84 | the lowercase fallback reply contains none of i, f, x, n, q |
| PatientGraph.FallbackLacksHe | graph/patient_graph.py:84 | no two adjacent characters of the fallback reply lower to "he" |
| PatientGraph.FallbackLacksHeadKeywords | graph/patient_graph.py:84-88 | none of "headache", "head hurt" and "head pain" occurs in the lowercase fallback reply |
| PatientGraph.RowAbsent | graph/patient_graph.py:97 | a row none of whose keywords occurs in the text does not match it |
| PatientGraph.HeadacheRowAbsent | graph/patient_graph.py:88 | text lacking the three headache keywords does not match the headache row |
| PatientGraph.FatigueRowAbsent | graph/patient_graph.py:89 | text without any of i, f, x, n, q does not match the fatigue row |
| PatientGraph.NauseaRowAbsent | graph/patient_graph.py:90 | text without any of i, f, x, n, q does not match the nausea row |
| PatientGraph.NoRowNothingNew | graph/patient_graph.py:93-98 | text that matches no row reveals no new symptom |
| PatientGraph.AllRowsAbsent | graph/patient_graph.py:87-91 | matching none of the three rows is matching no row of the table |
| PatientGraph.FallbackHasNoHeadacheWord | graph/patient_graph.py:84-88 | the lowercase fallback reply matches no headache keyword |
| PatientGraph.FallbackHasNoFatigueWord | graph/patient_graph.py:84-89 | the lowercase fallback reply matches no fatigue keyword |
| PatientGraph.FallbackHasNoNauseaWord | graph/patient_graph.py:84-90 | the lowercase fallback reply matches no nausea keyword |
| PatientGraph.FallbackMatchesNoRow | graph/patient_graph.py:84-98 | the lowercase fallback reply matches no row of the table |
| PatientGraph.FallbackRevealsNothing | graph/patient_graph.py:82-98 | a failed call leaves the revealed symptoms as they were |
| SessionManager.EmptySession | utils/session_manager.py:13-17 | a new session has no messages, no revealed symptoms and `conversation_end = false` |
| SessionManager.Lookup | utils/session_manager.py:22-23 | `dict.get`: the stored entry exactly when the id is stored, otherwise none |
| SessionManager.SessionStore.constructor | utils/session_manager.py:7 | the store starts empty |
| SessionManager.SessionStore.CreateSession | utils/session_manager.py:10-19 | stores an empty session under the fresh id and returns that id |
| SessionManager.SessionStore.GetSession | utils/session_manager.py:22-23 | returns the lookup of the id, never failing |
| SessionManager.SessionStore.ResetSession | utils/session_manager.py:26-28 | deletes the id when it is stored, otherwise changes nothing |
| SessionManager.CreateThenLookup | utils/session_manager.py:10-19 | a created session is found and empty, the store grows by one, and other ids look up as before |
| SessionManager.ResetThenLookup | utils/session_manager.py:26-28 | a reset id is not found, other ids look up as before, and resetting an unknown id changes nothing |
| SessionManager.NoneEndedKept | utils/session_manager.py:10-28 | creating and resetting keep every stored session un-ended |
| BackendSessionManager.BackendSessionStore.constructor | backend/utils/session_manager.py:3 | the store starts empty |
| BackendSessionManager.BackendSessionStore.CreateSession | backend/utils/session_manager.py:5-12 | adds exactly one empty, un-ended entry under the fresh id |
| BackendSessionManager.BackendSessionStore.GetSession | backend/utils/session_manager.py:14-15 | the stored entry exactly when the id is stored, otherwise none |
| BackendSessionManager.BackendSessionStore.ResetSession | backend/utils/session_manager.py:17-18 | the store afterwards is the store popped at the id |
| BackendSessionManager.PopRemovesOnlyId | backend/utils/session_manager.py:17-18 | popping removes the id when present, is a no-op otherwise, and leaves other entries unchanged |
| BackendSessionManager.PopIdempotent | backend/utils/session_manager.py:18 | resetting twice leaves the same store as resetting once |
| BackendSessionManager.PopMatchesRemoved | backend/utils/session_manager.py:17-18 | the pop-based reset and the membership-test reset of `utils/session_manager.py` agree |
| BackendApp.FetchOrCreate | backend/app.py:41-51 | the session named by the request when stored, otherwise a new one under the fresh id; the store grows only in the second case |
| BackendApp.ChatStepServes | backend/app.py:41-53 | once the session is chosen, `chat` serves the request from it, and it is stored |
| BackendApp.ServeUnfold | backend/app.py:61-78 | on a live session the answer is the node output's last message, and the stored fields are the node's output |
| BackendApp.ServeLive | backend/app.py:61-78 | a live session is stored with the query and the reply appended, its revealed symptoms extended by those newly mentioned, and left open; the answer is the reply; the call sees the history ending with the query |
| BackendApp.ServeKeepsOthers | backend/app.py:70-75 | serving answers under the session's id, keeps it stored, and leaves every other session unchanged |
| BackendApp.ServeKeepsOpen | backend/app.py:64-72 | serving a live session answers `conversation_end = false`, makes the call, and leaves the session open |
| BackendApp.Chat | backend/app.py:39-78 | `chat` leaves the store, the answer and the completion call of the reference step |
| BackendApp.TreatmentStepUnfold | backend/app.py:121-142 | on a live session the answer is the node output's last message, and an ended turn leaves the store without the session |
| BackendApp.Treatment | backend/app.py:99-142 | `treatment` leaves the store, the answer and the completion call of the reference step |
| BackendApp.ChatServesSession | backend/app.py:41-75 | a missing or unknown id is answered under the fresh id, a known one under itself; that session is stored; other sessions are unchanged |
| BackendApp.ChatEndedSession | backend/app.py:53-58 | an ended session gets "[Conversation already completed politely.]" with `conversation_end = true`, no call, and an unchanged store |
| BackendApp.ChatLiveTurn | backend/app.py:61-78 | a live turn stores the history with the query and the reply appended and the revealed symptoms extended, answers the reply, and leaves the session open |
| BackendApp.ChatNeverEnds | backend/app.py:64-72 | on a store with no ended session, a chat turn answers `conversation_end = false`, always calls the model, and leaves no session ended |
| BackendApp.TreatmentWithoutSession | backend/app.py:100-112 | no id gives "No active session found.", an unknown id "Session expired.", both with `conversation_end = true`, no call and no change |
| BackendApp.TreatmentEndedSession | backend/app.py:114-119 | an ended session gets "[Consultation already completed politely.]" with `conversation_end = true`, no call and no change |
| BackendApp.TreatmentLiveTurn | backend/app.py:121-142 | a live turn always uses the review prompt, answers the reply, and ends exactly when the call failed or the reply asks nothing; an ended turn deletes the session, an open one stores the history with the prescription and reply appended |
| BackendApp.TreatmentSessionLifecycle | backend/app.py:133-136 | after a turn on a stored session it is stored exactly when the turn left the conversation open; no stored session is ever ended |
| BackendApp.RepeatedClarifications | backend/app.py:121-131 | as written: two turns in a row on a live session whose replies each ask a question both stay open and keep the session stored |
| BackendApp.CorrectedAtMostOneClarification | backend/app.py:121-131 | with the flag kept per session: a turn that stays open has stored the flag as used, and the next turn on the session ends the conversation |
| BackendApp.EndedBranchesUnreachable | backend/app.py:39-142 | the store invariant "no stored session is ended" holds for the empty store and is kept by creating, resetting, `chat` and `treatment`; on such a store `chat` always makes the completion call, and so does `treatment` on a stored session, so the ended-session branches are never taken |
| ApiTypes.ToJson | api/index.py:62-64 | a chat message is written back as an entry with its content and role "doctor" or "patient" |
| ApiTypes.ReadAll | api/index.py:41-46 | a transcript that reads gives one message per entry |
| ApiTypes.ReadAllIff | api/index.py:41-46 | a transcript reads exactly when every entry does, and then entry by entry in order |
| ApiTypes.ReadAllAppend | api/index.py:41-46 | reading distributes over concatenation |
| ApiTypes.ToJsonAll | api/index.py:62-64 | one entry per message written back |
| ApiTypes.ReadAllToJson | api/index.py:62-64 | messages written back read back as the same messages, leniently or strictly |
| ApiTypes.ReadAllExtend | api/index.py:62-64 | a readable transcript extended with entries written back reads as its history extended with those messages |
| ApiTypes.ReadAllTurn | api/chat.py:62-63 | a readable transcript with a doctor entry and a patient entry appended reads as its history with the two messages appended |
| ApiTypes.LenientHistory | api/index.py:41-46 | the `m.get` conversion loop computes the lenient reading of the transcript |
| ApiTypes.StrictHistory | api/chat.py:42-47 | the `m["role"]` conversion loop computes the strict reading of the transcript |
| ApiIndex.ChatSpecAnswers | api/index.py:28-49 | past the greeting, on a transcript that reads, `chat` is the turn |
| ApiIndex.TreatmentSpecAnswers | api/index.py:113-134 | past the greeting, on a transcript that reads, `treatment` is the turn |
| ApiIndex.ChatAnswerUnfold | api/index.py:48-70 | the chat turn answers the node output's last message |
| ApiIndex.TreatmentAnswerUnfold | api/index.py:133-156 | the treatment turn answers the node output's last message |
| ApiIndex.Chat | api/index.py:19-70 | `chat` answers as the reference function does |
| ApiIndex.AnswerChat | api/index.py:48-70 | the tail of `chat` answers the chat turn |
| ApiIndex.Evaluate | api/index.py:74-100 | `evaluate` answers as the reference function does |
| ApiIndex.Treatment | api/index.py:104-156 | `treatment` answers as the reference function does |
| ApiIndex.AnswerTreatment | api/index.py:133-156 | the tail of `treatment` answers the treatment turn |
| ApiIndex.TranscriptReadsBack | api/index.py:62-64 | the returned transcript, sent back, reads as the graph's output history |
| ApiIndex.ChatGreets | api/index.py:28-38 | an empty stripped message and an empty transcript get the greeting, `conversation_end = false` and a one-entry patient transcript, without a call |
| ApiIndex.ChatRaisesIffBareEntry | api/index.py:41-46 | past the greeting the handler raises exactly when some transcript entry is not an object |
| ApiIndex.ChatTurn | api/index.py:48-70 | the call sees the history plus the stripped message when non-empty; the answer is the reply with `conversation_end = false`; the transcript is the input plus the doctor entry (non-empty message only) and the reply, and it reads back as the graph's output |
| ApiIndex.NoGraphFailure | api/index.py:51-58 | the modelled `chat` and `treatment` answer only 200 or 400 (or raise on an unreadable transcript); this holds because their reference functions have no branch for an exception from `invoke` |
| ApiIndex.FailedCallAnswered | api/index.py:51-70 | a failed completion call is answered 200 with the node's fallback reply appended to the transcript: the patient's with `conversation_end = false` for `chat`, the treatment fallback with both flags set for `treatment` |
| ApiIndex.EvaluateRequiresDoctorMessage | api/index.py:83-100 | an empty stripped `doctor_message` gives 400 without invoking the evaluator; otherwise the evaluator gets the stripped message and the history, and its exception becomes a 500 |
| ApiIndex.TreatmentGreets | api/index.py:117-124 | an empty stripped prescription and an empty transcript get the prescription request with both flags false, without a call |
| ApiIndex.TreatmentTurn | api/index.py:113-156 | the client's `clarification_used` selects the prompt and the flag rule; the answer carries the node's flags (so a used clarification always ends); the transcript reads back as the graph's output |
| ApiChat.TurnUnfold | api/chat.py:50-73 | the turn answers the node output's last message |
| ApiChat.Handle | api/chat.py:7-73 | `handler` answers as the reference function does |
| ApiChat.RejectsNonPost | api/chat.py:9-23 | a method other than POST gets 405, a body that is not JSON 400, neither with a call |
| ApiChat.Greets | api/chat.py:29-39 | a missing or empty message with an empty transcript gets the greeting, `conversation_end = false` and the transcript `[greeting]` |
| ApiChat.RaisesIffMissingMember | api/chat.py:42-50 | past the greeting the handler raises exactly when the message is missing or some entry lacks its role or content |
| ApiChat.TurnReply | api/chat.py:53-73 | a turn answers the node's reply with `conversation_end = false` |
| ApiChat.HandleIsTurn | api/chat.py:25-50 | past the greeting, on a transcript that reads, the handler is the turn |
| ApiChat.TurnAppendsTwo | api/chat.py:50-73 | a turn calls the model once on the history plus the message and returns the input transcript plus the doctor entry and the reply |
| ApiChat.GreetingTranscriptRejected | api/chat.py:29-47 | the greeting transcript `[greeting]`, sent back with any next message, makes the handler raise |
| ApiChat.CorrectedTranscriptsRead | api/chat.py:29-63 | with a patient-entry greeting, every transcript answered reads back strictly, given one that did |
| ApiChat.CorrectedGreetingContinues | api/chat.py:29-63 | with a patient-entry greeting, the reply to it is an ordinary turn whose call sees the greeting and the message |
| ApiTreatment.HandleIsTurn | api/treatment.py:25-54 | past the greeting, on a transcript that reads, the handler is the turn |
| ApiTreatment.TurnUnfold | api/treatment.py:54-78 | the turn answers the node output's last message and flags |
| ApiTreatment.Handle | api/treatment.py:7-78 | `handler` answers as the reference function does |
| ApiTreatment.RejectsNonPost | api/treatment.py:9-23 | a method other than POST gets 405, a body that is not JSON 400, neither with a call |
| ApiTreatment.Greets | api/treatment.py:30-43 | a missing or empty prescription with an empty transcript gets the greeting with both flags false and a one-entry patient transcript |
| ApiTreatment.RaisesIffMissingMember | api/treatment.py:46-54 | past the greeting the handler raises exactly when the prescription is missing or some entry lacks its role or content |
| ApiTreatment.TurnFlags | api/treatment.py:54-78 | the call uses the prompt the client's flag selects; the answer carries the reply, the input transcript plus two entries, and the node's flags, with both flag rules in both directions; the transcript reads back |
| ApiTreatment.AtMostOneClarification | api/treatment.py:57-78 | an answer that keeps the conversation open has used the clarification, and the request that sends it back ends the conversation |

## Left out

- The Groq client, the model name, the temperature and `max_tokens` are not modelled. The call is the parameter `gen`. A missing content (`None.strip()`) and any other exception inside the `try` are both `Failed`.
- The system prompt texts are not modelled. `SystemPrompt` records only which prompt is chosen, and whether the patient persona is amended because the consultation is ending.
- The LangGraph builder and `compile` are not modelled. Invoking a one-node graph is calling the node.
- The `print` and `logging` calls are not modelled.
- The evaluator graphs, `api/evaluate.py` and the backend `evaluate` route are not modelled. Their result is whatever the LLM's JSON holds. In `api/index.py` the evaluator's outcome is the parameter `evaluation`.
- `backend/agents/patient_agent.py`, `backend/list_models.py` and `app.py` are not part of this model.
- The `root` route of `backend/app.py` is not modelled.
- CORS and the serialisation of JSON are not modelled. A body either parses or is `None`. Members are of the types the handlers expect, or missing. JSON `null`, a non-object body and non-string values are not modelled.
- ApiIndex.Chat, ApiIndex.Evaluate, ApiIndex.Treatment: require POST or OPTIONS, because the Flask route answers any other method before the handler runs.
- The `except` → 500 branches of `chat` and `treatment` in `api/index.py` (api/index.py:57-58, 142-143) are left out of `ApiIndex.ChatSpec` and `ApiIndex.TreatmentSpec`. The modelled node is a total function of `gen`, and every failure inside the node's `try` becomes `Failed` and the fallback reply (`ApiIndex.FailedCallAnswered`). `ApiIndex.NoGraphFailure` only records that the modelled handlers answer 200 or 400. An exception raised by LangGraph itself, outside the node's `try`, is not modelled.
- Text.LowerChar: lowers ASCII capitals, the Kelvin sign (U+212A), and the capital I with dot above (U+0130, to `i` and a combining dot). Every other character is kept as it is. That covers every character whose lowercase form contains an ASCII character. Every keyword and question indicator is ASCII, so the substring tests are exact, but `Text.Lower` is not Python's full `str.lower()`.
- The fallback reply of `patient_node` is written as its words joined. The value is the same string.
- The random uuid is the parameter `freshId`, required not to name a stored session.
- There is no concurrency on the shared `_sessions` dictionary.
- PatientGraph.LastDoctorMessage: the node computes this value and never uses it. The model computes it and discards it the same way.
- The `backend/app.py` treatment flow passes `clarification_used = False` on every call. A stored session keeps no clarification flag, so each prescription is reviewed afresh. `BackendApp.TreatmentStep` models this as written; see "## Findings".
- BackendApp.Chat and BackendApp.Treatment: the in-place `append` to the stored message list is modelled as a write of the extended list into the session. Python lists aliased elsewhere are not modelled.

## Findings

| source | as written | input that shows it | evidently intended | confidence | as-written member | corrected member |
|---|---|---|---|---|---|---|
| api/chat.py:35 | the greeting's transcript is `[greeting]`, a bare string | an opening request with no message and no transcript, then a request sending that transcript back with any message: the loop at api/chat.py:44 indexes the string with `"role"` and raises | `[{"role": "patient", "content": greeting}]`, as the other greetings are written at api/treatment.py:37-39 and api/index.py:37 | not executed | ApiChat.GreetingTranscriptRejected | ApiChat.CorrectedTranscriptsRead |
| backend/app.py:126 | every treatment turn invokes the node with `clarification_used: False`, and the session stores no clarification flag | a stored live session and two prescriptions whose replies each ask a question (say "How often should I take it?"): both turns stay open, and so would any number more | the flag the node returns stored in the session and passed back on the next turn, so a consultation gets at most one clarifying question, as the stateless handler does with the client's flag (api/treatment.py:27, 57-61) | not executed | BackendApp.RepeatedClarifications | BackendApp.CorrectedAtMostOneClarification |

`ApiChat.HandleSpec` and `ApiChat.Handle` model the handler as written.
`ApiChat.HandleCorrectedSpec` is the same handler with the greeting as a
patient entry. Two lemmas are proved about it:
- `ApiChat.CorrectedTranscriptsRead`: every transcript it returns can be
  sent back.
- `ApiChat.CorrectedGreetingContinues`: the doctor's first reply to the
  greeting becomes an ordinary turn.

For `backend/app.py`, `BackendApp.TreatmentStep` models `treatment` as
written. `BackendApp.CorrectedTreatmentStep` keeps a clarification flag per
session beside the store. `BackendApp.CorrectedAtMostOneClarification`
proves that, with the flag kept, a consultation gets at most one
clarifying question.
