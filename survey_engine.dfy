/**
 * One survey callback: find or create the caller's participant document, store the answer to
 * the previous question, and build the next flow.
 */
module SurveyEngine {
  import opened Wrappers
  import opened CallFlow
  import opened ParticipantStore

  /**
   * The inputs of one callback: the `callID` and `destination` query parameters, the request
   * host and the request body parsed as an answer (`None` when parsing throws).
   */
  datatype Callback = Callback(callId: string, destination: string, host: string, body: Option<Response>)

  /** The question number, computed from the stored answers before the new answer is added. */
  function QuestionId(store: Store, callId: string): (q: nat)
    ensures q == 0 <==> callId !in store
    ensures callId in store ==> q == |store[callId].responses| + 1
  {
    if callId in store then |store[callId].responses| + 1 else 0
  }

  /** The collection after the callback has run its `insertOne` or its `updateOne`. */
  function StoreAfter(store: Store, cb: Callback): (s': Store)
    ensures s'.Keys == store.Keys + {cb.callId}
    ensures forall id :: id in store && id != cb.callId ==> s'[id] == store[id]
    ensures cb.callId !in store ==> s'[cb.callId] == Participant(cb.callId, cb.destination, [])
    ensures cb.callId in store ==>
              && s'[cb.callId].callId == store[cb.callId].callId
              && s'[cb.callId].number == store[cb.callId].number
              && store[cb.callId].responses <= s'[cb.callId].responses
              && (cb.body.None? ==> s'[cb.callId] == store[cb.callId])
              && (cb.body.Some? ==> s'[cb.callId].responses == AddToSet(store[cb.callId].responses, cb.body.value))
  {
    if cb.callId !in store then
      store[cb.callId := Participant(cb.callId, cb.destination, [])]
    else
      match cb.body
      case None => store
      case Some(r) =>
        var p := store[cb.callId];
        store[cb.callId := p.(responses := AddToSet(p.responses, r))]
  }

  /** The specification of one callback: the new collection and what the request returns. */
  function CallStep(store: Store, cb: Callback, questions: seq<string>): (r: (Store, Outcome))
    ensures r.0.Keys == store.Keys + {cb.callId}
    ensures r.1.QuestionOutOfRange? <==> cb.callId in store && |store[cb.callId].responses| >= |questions|
    ensures r.1.Done? && r.1.flow.steps == [SayStep(CompletionMessage)] <==>
              if cb.callId in store then |store[cb.callId].responses| + 1 == |questions| else |questions| == 0
  {
    (StoreAfter(store, cb), NextFlow(QuestionId(store, cb.callId), questions, cb.host))
  }

  /** `handleCallStep`: updates the collection in place and builds the steps one after another. */
  method HandleCallStep(collection: ParticipantCollection, cb: Callback, questions: seq<string>) returns (outcome: Outcome)
    requires collection.Valid()
    modifies collection
    ensures collection.Valid()
    ensures collection.participants == StoreAfter(old(collection.participants), cb)
    ensures outcome == NextFlow(QuestionId(old(collection.participants), cb.callId), questions, cb.host)
  {
    var doc := collection.Find(cb.callId);
    var questionId: nat := 0;
    if doc.Some? {
      questionId := |doc.value.responses| + 1;
    } else {
      collection.InsertOne(Participant(cb.callId, cb.destination, []));
    }

    if questionId > 0 {
      match cb.body
      case Some(response) =>
        collection.UpdateAddToSet(cb.callId, response);
      case None =>
        // the parse error is only reported; the flow is still built
    }

    var steps: seq<Step> := [];
    if questionId == |questions| {
      steps := steps + [SayStep(CompletionMessage)];
    } else {
      if questionId == 0 {
        steps := steps + [SayStep(WelcomeMessage(|questions|))];
      }
      if questionId >= |questions| {
        return QuestionOutOfRange(questionId, |questions|);
      }
      steps := steps + [SayStep(questions[questionId])];
      steps := steps + [RecordStep(cb.host)];
    }
    outcome := Done(Flow(Title, steps));
  }

  /** Every callback keeps each document under its own call identifier. */
  lemma StoreAfterWellKeyed(store: Store, cb: Callback)
    requires WellKeyed(store)
    ensures WellKeyed(StoreAfter(store, cb))
  {
  }

  /**
   * An unknown call gets exactly one new document with no answers and is asked question 0,
   * whatever its body holds.
   */
  lemma NewCallStarts(store: Store, cb: Callback, questions: seq<string>, other: Option<Response>)
    requires cb.callId !in store
    ensures CallStep(store, cb, questions).0 == store[cb.callId := Participant(cb.callId, cb.destination, [])]
    ensures CallStep(store, cb, questions) == CallStep(store, cb.(body := other), questions)
    ensures CallStep(store, cb, questions).1 == NextFlow(0, questions, cb.host)
  {
  }

  /** A body that cannot be parsed leaves the collection as it was, yet the next question is still asked. */
  lemma ParseFailureStillAdvances(store: Store, cb: Callback, questions: seq<string>)
    requires cb.callId in store && cb.body.None?
    ensures CallStep(store, cb, questions).0 == store
    ensures CallStep(store, cb, questions).1 == NextFlow(|store[cb.callId].responses| + 1, questions, cb.host)
  {
  }

  /**
   * A repeated delivery of an answer already stored changes nothing in the collection, yet the
   * question number still moves on: the flow asks question k + 1 while only k answers are stored.
   */
  lemma DuplicateAnswerStillAdvances(store: Store, cb: Callback, questions: seq<string>)
    requires cb.callId in store && cb.body.Some? && cb.body.value in store[cb.callId].responses
    ensures CallStep(store, cb, questions).0 == store
    ensures CallStep(store, cb, questions).1 == NextFlow(|store[cb.callId].responses| + 1, questions, cb.host)
  {
  }

  /**
   * A callback for a participant who has answered every question fails on the question lookup,
   * after its answer has already been added, so the stored answers outnumber the questions.
   */
  lemma CallbackAfterCompletionFails(store: Store, cb: Callback, questions: seq<string>)
    requires cb.callId in store && |store[cb.callId].responses| == |questions|
    requires cb.body.Some? && cb.body.value !in store[cb.callId].responses
    ensures CallStep(store, cb, questions).1 == QuestionOutOfRange(|questions| + 1, |questions|)
    ensures |CallStep(store, cb, questions).0[cb.callId].responses| == |questions| + 1
  {
  }

  /**
   * With one answer missing, a callback whose answer is not stored (the body fails to parse, or
   * repeats a stored answer) gets the completion message and leaves the collection unchanged, so
   * the same callback again gets the completion message again.
   */
  lemma CompletionRepeatsWhenAnswerNotStored(store: Store, cb: Callback, questions: seq<string>)
    requires cb.callId in store && |store[cb.callId].responses| + 1 == |questions|
    requires cb.body.None? || cb.body.value in store[cb.callId].responses
    ensures CallStep(store, cb, questions).0 == store
    ensures CallStep(store, cb, questions).1 == Done(Flow(Title, [SayStep(CompletionMessage)]))
    ensures CallStep(CallStep(store, cb, questions).0, cb, questions) == CallStep(store, cb, questions)
  {
  }
}
