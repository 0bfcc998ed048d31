# Automated voice survey: the call-step engine

A telephony platform calls the survey's `/callStep` webhook on every step of a phone call. Each
callback is answered with a call-flow document (a title and a list of "say" and "record" steps).
Between callbacks the answers are kept in a participant collection with one document per call.
The document holds the caller's number and the recorded answers in arrival order.

This project models the engine of `AutomatedVoiceSurvey.java`:

- `say`, the builder of a "say" step;
- `handleCallStep`, which runs on every callback. It looks up the participant document for the
  call, or creates one with no answers. It takes the question number from the number of stored
  answers. It stores the answer that the request body reports with `$addToSet`. It then builds the
  next flow: the completion message, or an optional welcome, the question and a record step.

Modules:

- `Wrappers`: `Option`.
- `Decimal`: the decimal text of the question count in the welcome message, with its reading partner.
- `CallFlow`: steps, flows and `NextFlow`, the flow for a question number.
- `ParticipantStore`: answers, participants, `$addToSet`, and the class `ParticipantCollection`
  with `find`, `insertOne` and `updateOne`.
- `SurveyEngine`: `HandleCallStep`, the imperative handler. It updates the collection in place and
  appends the steps one by one. It is proved against the specification functions `StoreAfter` and
  `NextFlow`.
- `SurveyRuns`: sequences of callbacks for one call, and what they store and ask.

Behaviour of the code that the model keeps as written:

- The question number is the stored answer count plus one, read before the append. So a body that
  does not parse, or a repeated answer that `$addToSet` ignores, still moves to the next question
  number.
- The completion message is given when the question number equals the catalog size, that is
  when the participant has one answer fewer than there are questions. If the completing callback's
  answer is stored, the participant then holds as many answers as there are questions. Another
  callback after that has question number size + 1. If it carries a fresh answer, that answer is
  stored first, so the stored answers then outnumber the questions. Whatever the body,
  `questions.get` then fails, modelled as `QuestionOutOfRange` (`CallStep`,
  `CallbackAfterCompletionFails`). If the completing callback's answer is
  not stored (the body does not parse, or repeats a stored answer), the count stays one short.
  Every repeat of that callback then gets the completion message again
  (`CompletionRepeatsWhenAnswerNotStored`).
- The record step's callback address is `http://<host>/callStep`. The code does not add the call
  identifier to this address.
- An empty catalog gives the completion message on the first callback.

Inputs stand in for I/O: the query parameters `callID` and `destination`, `req.host()`, and the
parsed request body are fields of `Callback`. The question catalog is a `seq<string>` parameter.
`None` as the body stands for a body on which the JSON parser throws `ParseException`.

## Model

| member | source | states |
|---|---|---|
| CallFlow.SayStep | src/main/java/AutomatedVoiceSurvey.java:36-46 | a "say" step carries exactly the given payload, voice "male" and language "en-US" |
| CallFlow.RecordStep | src/main/java/AutomatedVoiceSurvey.java:102-110 | the record step finishes on "any" key, has timeout 10 and calls back to `http://<host>/callStep` |
| CallFlow.NextFlow | src/main/java/AutomatedVoiceSurvey.java:90-111 | the lookup fails exactly when the question number is past the catalog size, reporting that number and the size; the title is always "Survey Call Step"; the flow is the single completion step exactly when the number equals the size; for question 0 of a non-empty catalog the steps are exactly the welcome with the count, question 0 and the record step; for a question number between 0 and the size the steps are exactly that question and the record step, with no welcome |
| CallFlow.NextFlowSettings | src/main/java/AutomatedVoiceSurvey.java:90-111 | every say step of a flow is in the survey voice and language, every record step calls back to the host, and there is a record step exactly when the question number is below the catalog size |
| CallFlow.WelcomeMessage | src/main/java/AutomatedVoiceSurvey.java:96 | the welcome is the fixed opening and closing text with the catalog size in decimal between them; the digits between them read back as the size and have no leading zero, as `Integer.toString` prints them |
| CallFlow.WelcomeDeterminesCount | src/main/java/AutomatedVoiceSurvey.java:96 | the welcome message determines the question count it announces |
| Decimal.NatToDecimal | src/main/java/AutomatedVoiceSurvey.java:96 | the count is rendered as a non-empty string of digits without a leading zero |
| Decimal.DecimalRoundTrip | src/main/java/AutomatedVoiceSurvey.java:96 | reading the rendered count back as a decimal number gives the count |
| Decimal.DecimalInjective | src/main/java/AutomatedVoiceSurvey.java:96 | different counts have different renderings |
| ParticipantStore.AddToSet | src/main/java/AutomatedVoiceSurvey.java:84 | the answer ends up in the list; the elements are the old ones plus the answer; the old list is a prefix; the length grows by one exactly when the answer was absent |
| ParticipantStore.AddToSetIdempotent | src/main/java/AutomatedVoiceSurvey.java:84 | adding the same answer twice is the same as adding it once |
| ParticipantStore.AddToSetKeepsNoDuplicates | src/main/java/AutomatedVoiceSurvey.java:84 | a duplicate-free answer list stays duplicate-free |
| ParticipantStore.ParticipantCollection.Find | src/main/java/AutomatedVoiceSurvey.java:58 | gives the call's document exactly when there is one, and that document's own `callId` is the one searched for |
| ParticipantStore.ParticipantCollection.InsertOne | src/main/java/AutomatedVoiceSurvey.java:67-71 | the collection gains the new document under its call identifier, and nothing else changes |
| ParticipantStore.ParticipantCollection.UpdateAddToSet | src/main/java/AutomatedVoiceSurvey.java:84 | the matching document's answers are updated with `$addToSet`; with no match nothing changes |
| SurveyEngine.QuestionId | src/main/java/AutomatedVoiceSurvey.java:60-65 | the question number is 0 exactly for an unknown call, otherwise the stored answer count plus one |
| SurveyEngine.StoreAfter | src/main/java/AutomatedVoiceSurvey.java:63-88 | the call's key is added and other documents are unchanged; an unknown call gets a document with the destination and no answers; for a known call the identifier and number stay, the old answers stay a prefix, a failed parse changes nothing and a parsed answer is added with `$addToSet` |
| SurveyEngine.CallStep | src/main/java/AutomatedVoiceSurvey.java:48-118 | the meaning of one callback: the collection afterwards (`StoreAfter`) and the outcome (`NextFlow` for the question number read before the update). The call's key is present afterwards. The lookup fails exactly when the call already holds at least as many answers as there are questions. The completion message comes exactly when one answer is missing, or for a new call when the catalog is empty |
| SurveyEngine.HandleCallStep | src/main/java/AutomatedVoiceSurvey.java:48-118 | the collection after the callback is `StoreAfter` of the one before, and the result is `NextFlow` for the question number read before the update, built step by step |
| SurveyEngine.StoreAfterWellKeyed | src/main/java/AutomatedVoiceSurvey.java:67-84 | every document stays under its own call identifier |
| SurveyEngine.NewCallStarts | src/main/java/AutomatedVoiceSurvey.java:58-74 | an unknown call gains exactly one empty document, gets the flow for question 0, and the body does not matter |
| SurveyEngine.ParseFailureStillAdvances | src/main/java/AutomatedVoiceSurvey.java:74-88 | an unparseable body leaves the collection unchanged, yet the flow for stored count plus one is returned |
| SurveyEngine.DuplicateAnswerStillAdvances | src/main/java/AutomatedVoiceSurvey.java:74-84 | a repeated answer leaves the collection unchanged, yet the flow for stored count plus one is returned |
| SurveyEngine.CallbackAfterCompletionFails | src/main/java/AutomatedVoiceSurvey.java:63-100 | a callback with a fresh answer for a fully answered participant stores one answer more than there are questions and fails on the question lookup |
| SurveyEngine.CompletionRepeatsWhenAnswerNotStored | src/main/java/AutomatedVoiceSurvey.java:63-92 | with one answer missing, an unparseable or repeated answer leaves the collection unchanged and gets the completion message, and the same callback again gets the same result |
| SurveyRuns.AnswerStored | src/main/java/AutomatedVoiceSurvey.java:63-84 | a fresh answer for a known call is appended to that call's answers, and nothing else in the collection changes |
| SurveyRuns.AnsweringRunStores | src/main/java/AutomatedVoiceSurvey.java:63-84 | fresh answers for a known call are appended one per callback, in order |
| SurveyRuns.AnsweringRunAsks | src/main/java/AutomatedVoiceSurvey.java:63-100 | with fresh answers, the callbacks ask for consecutive question numbers from stored count plus one |
| SurveyRuns.SurveyRunAsks | src/main/java/AutomatedVoiceSurvey.java:48-118 | from an unknown call on, with fresh answers the callbacks are given the flows for questions 0, 1, 2, ... in order |
| SurveyRuns.SurveyRun | src/main/java/AutomatedVoiceSurvey.java:48-118 | a first callback for an unknown call, then fresh answers: after callback i (from 1) the participant holds i - 1 answers, in order, and callback i gets the flow for question i - 1 |
| SurveyRuns.CompleteSurvey | src/main/java/AutomatedVoiceSurvey.java:48-118 | with one callback more than there are questions, callback i gets exactly the flow welcome + question 0 + record for i = 0 and question i + record otherwise, each answer is stored at its question's position, and the last flow is the completion message |
| SurveyRuns.RunIsolatesCalls | src/main/java/AutomatedVoiceSurvey.java:58-84 | callbacks for one call never create, change or remove another call's document |
| SurveyRuns.RunWellKeyed | src/main/java/AutomatedVoiceSurvey.java:67-84 | over any sequence of callbacks every document stays under its own call identifier |
| SurveyRuns.TwoQuestionCall | src/main/java/AutomatedVoiceSurvey.java:48-118 | with questions Q1 and Q2: welcome + Q1 + record, then Q2 + record, then the completion message, with answers L1/R1 and L2/R2 stored |

## Left out

- Start-up in `main` (lines 120-135) is left out. It loads configuration, connects to the database, reads `questions.json` and registers the routes. The catalog is a parameter instead.
- The `/admin` page (lines 137-153) is left out. It is templating over a scan of the collection.
- The `/play/*/*/*` recording relay (lines 158-191) is left out. It is file and network I/O.
- JSON parsing and serialisation (json-simple, `JSONObject`) are library code. The body is an `Option<Response>` input and the flow is a datatype.
- A body that parses to JSON other than an object is left out. The `(JSONObject)` cast then throws `ClassCastException`, which is not caught. A body that parses to `null` is left out too. The cast succeeds, and `requestPayload.get` then throws `NullPointerException`, which is not caught.
- A body object whose `legId` or `id` is not a string is left out. `get` returns whatever JSON value is there: `null` when the key is missing, or a number, boolean, array or object. That value is stored as it is, and `$addToSet` compares such values. The model's answer fields are always strings.
- Missing query parameters and other non-string inputs are left out.
  - `queryParams` would give `null`; the model's `callId` and `destination` are always strings.
  - `req.host()` is `null` on a request without a Host header. `String.format` would then give `http://null/callStep`; the model's `host` is always a string.
  - The catalog is a `seq<string>`, but `questions.get(questionID).toString()` works on any JSON value there: a number would be spoken as its text, and a `null` entry throws `NullPointerException`.
- ParticipantStore.ParticipantCollection.InsertOne: requires that the call has no document yet. A map cannot hold two documents for one call; `handleCallStep` only inserts after `find` found none.
- ParticipantStore.AddToSet: appends a new answer at the end of the list. MongoDB does not document an order for `$addToSet`, though the server appends at the end. The model assumes end-append, and "answers in arrival order" and `CompleteSurvey`'s "each answer at its question's position" rely on it.
- Concurrent callbacks and the atomicity of `updateOne` are left out. Each callback is one sequential step on the collection.
- Failures of the database calls are left out. If `find`, `insertOne` or `updateOne` throws, for example because the store cannot be reached, the request fails. In the model these calls always succeed.
- The response content type and `printStackTrace` are left out. They change no state and no output content.
