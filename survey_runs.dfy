/**
 * Sequences of callbacks, one after the other, as the telephony platform sends them during
 * a call: how the stored answers and the questions asked evolve.
 */
module SurveyRuns {
  import opened Wrappers
  import opened CallFlow
  import opened ParticipantStore
  import opened SurveyEngine

  /** The collection after the callbacks have run in order. */
  function RunStore(store: Store, cbs: seq<Callback>): (s': Store)
    ensures store.Keys <= s'.Keys
    decreases |cbs|
  {
    if cbs == [] then store else RunStore(StoreAfter(store, cbs[0]), cbs[1..])
  }

  /** What each of the callbacks returned, run in order from `store`. */
  function RunFlows(store: Store, cbs: seq<Callback>, questions: seq<string>): (os: seq<Outcome>)
    ensures |os| == |cbs|
    decreases |cbs|
  {
    if cbs == [] then []
    else [CallStep(store, cbs[0], questions).1] + RunFlows(CallStep(store, cbs[0], questions).0, cbs[1..], questions)
  }

  /** Every callback is for `callId` and carries a parsed answer. */
  predicate AllAnswer(cbs: seq<Callback>, callId: string) {
    forall i :: 0 <= i < |cbs| ==> cbs[i].callId == callId && cbs[i].body.Some?
  }

  /** The answers are new: pairwise different and none already in `stored`. */
  predicate FreshAnswers(cbs: seq<Callback>, stored: seq<Response>)
    requires forall i :: 0 <= i < |cbs| ==> cbs[i].body.Some?
  {
    && (forall i :: 0 <= i < |cbs| ==> cbs[i].body.value !in stored)
    && (forall i, j :: 0 <= i < j < |cbs| ==> cbs[i].body.value != cbs[j].body.value)
  }

  /** The answers the callbacks carry, in order. */
  function Answers(cbs: seq<Callback>): (rs: seq<Response>)
    requires forall i :: 0 <= i < |cbs| ==> cbs[i].body.Some?
    ensures |rs| == |cbs| && forall i :: 0 <= i < |cbs| ==> rs[i] == cbs[i].body.value
  {
    seq(|cbs|, i requires 0 <= i < |cbs| => cbs[i].body.value)
  }

  /** One fresh answer for a present document is appended to its answers. */
  lemma AnswerStored(store: Store, cb: Callback)
    requires cb.callId in store && cb.body.Some? && cb.body.value !in store[cb.callId].responses
    ensures StoreAfter(store, cb) ==
              store[cb.callId := store[cb.callId].(responses := store[cb.callId].responses + [cb.body.value])]
  {
  }

  /** The freshness conditions carry over from a run to its tail once its first answer is stored. */
  lemma FreshTail(cbs: seq<Callback>, callId: string, stored: seq<Response>)
    requires |cbs| >= 1 && AllAnswer(cbs, callId) && FreshAnswers(cbs, stored)
    ensures AllAnswer(cbs[1..], callId)
    ensures FreshAnswers(cbs[1..], stored + [cbs[0].body.value])
    ensures Answers(cbs) == [cbs[0].body.value] + Answers(cbs[1..])
  {
  }

  /** With a document already present, fresh answers are appended one each, in order. */
  lemma {:induction false} AnsweringRunStores(store: Store, callId: string, cbs: seq<Callback>)
    requires callId in store
    requires AllAnswer(cbs, callId)
    requires FreshAnswers(cbs, store[callId].responses)
    ensures callId in RunStore(store, cbs)
    ensures RunStore(store, cbs)[callId].responses == store[callId].responses + Answers(cbs)
    decreases |cbs|
  {
    if cbs != [] {
      var rs := store[callId].responses;
      AnswerStored(store, cbs[0]);
      var next := StoreAfter(store, cbs[0]);
      FreshTail(cbs, callId, rs);
      AnsweringRunStores(next, callId, cbs[1..]);
      assert rs + Answers(cbs) == (rs + [cbs[0].body.value]) + Answers(cbs[1..]);
    }
  }

  /** The flows for consecutive question numbers from `k` on, one per callback. */
  function FlowsFrom(k: nat, cbs: seq<Callback>, questions: seq<string>): (os: seq<Outcome>)
    ensures |os| == |cbs|
    decreases |cbs|
  {
    if cbs == [] then [] else [NextFlow(k, questions, cbs[0].host)] + FlowsFrom(k + 1, cbs[1..], questions)
  }

  /** Entry `i` of FlowsFrom is the flow for question number `k + i`. */
  lemma {:induction false} FlowsFromAt(k: nat, cbs: seq<Callback>, questions: seq<string>, i: nat)
    requires i < |cbs|
    ensures FlowsFrom(k, cbs, questions)[i] == NextFlow(k + i, questions, cbs[i].host)
    decreases |cbs|
  {
    var tail := FlowsFrom(k + 1, cbs[1..], questions);
    assert FlowsFrom(k, cbs, questions) == [NextFlow(k, questions, cbs[0].host)] + tail;
    if i > 0 {
      FlowsFromAt(k + 1, cbs[1..], questions, i - 1);
      assert cbs[1..][i - 1] == cbs[i];
      assert FlowsFrom(k, cbs, questions)[i] == tail[i - 1];
    }
  }

  /**
   * With a document already present and fresh answers, the callbacks ask for consecutive
   * question numbers, starting at (stored answers before the run) + 1.
   */
  lemma {:induction false} AnsweringRunAsks(store: Store, callId: string, cbs: seq<Callback>, questions: seq<string>)
    requires callId in store
    requires AllAnswer(cbs, callId)
    requires FreshAnswers(cbs, store[callId].responses)
    ensures RunFlows(store, cbs, questions) == FlowsFrom(|store[callId].responses| + 1, cbs, questions)
    decreases |cbs|
  {
    if cbs != [] {
      var rs := store[callId].responses;
      AnswerStored(store, cbs[0]);
      var next := StoreAfter(store, cbs[0]);
      FreshTail(cbs, callId, rs);
      assert |next[callId].responses| == |rs| + 1;
      AnsweringRunAsks(next, callId, cbs[1..], questions);
    }
  }

  /** From an unknown call on, fresh answers make the callbacks ask questions 0, 1, 2, ... */
  lemma SurveyRunAsks(store: Store, callId: string, cbs: seq<Callback>, questions: seq<string>)
    requires callId !in store
    requires |cbs| >= 1 && cbs[0].callId == callId
    requires AllAnswer(cbs[1..], callId)
    requires FreshAnswers(cbs[1..], [])
    ensures RunFlows(store, cbs, questions) == FlowsFrom(0, cbs, questions)
  {
    var next := StoreAfter(store, cbs[0]);
    assert next[callId].responses == [];
    AnsweringRunAsks(next, callId, cbs[1..], questions);
  }

  /**
   * A complete call: the first callback for an unknown call, then one fresh answer per
   * callback. After callback `i` (counting from 1) the participant holds `i - 1` answers, and
   * callback `i` asks for question `i - 1`: a question while the catalog lasts, the completion
   * message at its end, an out-of-range failure past it.
   */
  lemma SurveyRun(store: Store, callId: string, cbs: seq<Callback>, questions: seq<string>)
    requires callId !in store
    requires |cbs| >= 1 && cbs[0].callId == callId
    requires AllAnswer(cbs[1..], callId)
    requires FreshAnswers(cbs[1..], [])
    ensures callId in RunStore(store, cbs)
    ensures RunStore(store, cbs)[callId].responses == Answers(cbs[1..])
    ensures |RunStore(store, cbs)[callId].responses| == |cbs| - 1
    ensures forall i :: 0 <= i < |cbs| ==> RunFlows(store, cbs, questions)[i] == NextFlow(i, questions, cbs[i].host)
  {
    var next := StoreAfter(store, cbs[0]);
    assert next[callId].responses == [];
    AnsweringRunStores(next, callId, cbs[1..]);
    SurveyRunAsks(store, callId, cbs, questions);
    forall i | 0 <= i < |cbs| ensures FlowsFrom(0, cbs, questions)[i] == NextFlow(i, questions, cbs[i].host) {
      FlowsFromAt(0, cbs, questions, i);
    }
  }

  /**
   * A call with one callback more than there are questions, all answers fresh: every question
   * is asked once, in catalog order, after it the completion message, and each answer is stored
   * at the position of the question it answers.
   */
  lemma CompleteSurvey(store: Store, callId: string, cbs: seq<Callback>, questions: seq<string>)
    requires callId !in store
    requires |cbs| == |questions| + 1 && cbs[0].callId == callId
    requires AllAnswer(cbs[1..], callId)
    requires FreshAnswers(cbs[1..], [])
    ensures |RunStore(store, cbs)[callId].responses| == |questions|
    ensures forall i :: 0 <= i < |questions| ==>
              var o := RunFlows(store, cbs, questions)[i];
              && o.Done? && o.flow.title == Title
              && o.flow.steps == (if i == 0 then [SayStep(WelcomeMessage(|questions|))] else [])
                                 + [SayStep(questions[i]), RecordStep(cbs[i].host)]
              && RunStore(store, cbs)[callId].responses[i] == cbs[i + 1].body.value
    ensures RunFlows(store, cbs, questions)[|questions|] == Done(Flow(Title, [SayStep(CompletionMessage)]))
  {
    SurveyRun(store, callId, cbs, questions);
    forall i | 0 <= i < |questions|
      ensures RunStore(store, cbs)[callId].responses[i] == cbs[i + 1].body.value
    {
      assert cbs[1..][i] == cbs[i + 1];
    }
  }

  /** Callbacks for one call never touch another call's document, nor create it. */
  lemma {:induction false} RunIsolatesCalls(store: Store, callId: string, cbs: seq<Callback>, other: string)
    requires other != callId
    requires forall i :: 0 <= i < |cbs| ==> cbs[i].callId == callId
    ensures other in RunStore(store, cbs) <==> other in store
    ensures other in store ==> RunStore(store, cbs)[other] == store[other]
    decreases |cbs|
  {
    if cbs != [] {
      RunIsolatesCalls(StoreAfter(store, cbs[0]), callId, cbs[1..], other);
    }
  }

  /** Every callback keeps every document under its own call identifier. */
  lemma {:induction false} RunWellKeyed(store: Store, cbs: seq<Callback>)
    requires WellKeyed(store)
    ensures WellKeyed(RunStore(store, cbs))
    decreases |cbs|
  {
    if cbs != [] {
      StoreAfterWellKeyed(store, cbs[0]);
      RunWellKeyed(StoreAfter(store, cbs[0]), cbs[1..]);
    }
  }

  /** The three documents of the two-question walk-through, one callback at a time. */
  lemma TwoQuestionStores(host: string)
    ensures StoreAfter(map[], Callback("abc", "555", host, None)) == map["abc" := Participant("abc", "555", [])]
    ensures StoreAfter(map["abc" := Participant("abc", "555", [])], Callback("abc", "555", host, Some(Response("L1", "R1"))))
              == map["abc" := Participant("abc", "555", [Response("L1", "R1")])]
    ensures StoreAfter(map["abc" := Participant("abc", "555", [Response("L1", "R1")])], Callback("abc", "555", host, Some(Response("L2", "R2"))))
              == map["abc" := Participant("abc", "555", [Response("L1", "R1"), Response("L2", "R2")])]
  {
    var a1, a2 := Response("L1", "R1"), Response("L2", "R2");
    var s1 := map["abc" := Participant("abc", "555", [])];
    var s2 := map["abc" := Participant("abc", "555", [a1])];
    AnswerStored(s1, Callback("abc", "555", host, Some(a1)));
    assert s1["abc"].responses + [a1] == [a1];
    assert a2 !in [a1];
    AnswerStored(s2, Callback("abc", "555", host, Some(a2)));
    assert s2["abc"].responses + [a2] == [a1, a2];
  }

  /**
   * The two-question walk-through: a first callback without a body, then the answers L1/R1 and
   * L2/R2; the flows are welcome + "Q1" + record, then "Q2" + record, then the completion message.
   */
  lemma TwoQuestionCall(host: string)
    ensures
      var questions := ["Q1", "Q2"];
      var a1, a2 := Response("L1", "R1"), Response("L2", "R2");
      var cbs := [Callback("abc", "555", host, None), Callback("abc", "555", host, Some(a1)), Callback("abc", "555", host, Some(a2))];
      && RunStore(map[], cbs) == map["abc" := Participant("abc", "555", [a1, a2])]
      && RunFlows(map[], cbs, questions) == [
           Done(Flow(Title, [SayStep(WelcomeMessage(2)), SayStep("Q1"), RecordStep(host)])),
           Done(Flow(Title, [SayStep("Q2"), RecordStep(host)])),
           Done(Flow(Title, [SayStep(CompletionMessage)]))
         ]
  {
    var questions := ["Q1", "Q2"];
    var a1, a2 := Response("L1", "R1"), Response("L2", "R2");
    var cbs := [Callback("abc", "555", host, None), Callback("abc", "555", host, Some(a1)), Callback("abc", "555", host, Some(a2))];
    var s0: Store := map[];
    var s1 := map["abc" := Participant("abc", "555", [])];
    var s2 := map["abc" := Participant("abc", "555", [a1])];
    var s3 := map["abc" := Participant("abc", "555", [a1, a2])];
    TwoQuestionStores(host);
    assert cbs[1..][1..] == [cbs[2]];
    assert cbs[1..][1..][1..] == [];
    assert RunStore(s2, [cbs[2]]) == s3;
    assert RunStore(s0, cbs) == s3;
    assert |questions| == 2 && questions[0] == "Q1" && questions[1] == "Q2";
    assert RunFlows(s2, [cbs[2]], questions) == [NextFlow(2, questions, host)];
    assert RunFlows(s1, cbs[1..], questions) == [NextFlow(1, questions, host), NextFlow(2, questions, host)];
    assert RunFlows(s0, cbs, questions) == [NextFlow(0, questions, host), NextFlow(1, questions, host), NextFlow(2, questions, host)];
  }
}
