/**
 * The call-flow instruction document that answers every callback: a title and an ordered
 * list of steps, each a "say" or a "record" instruction for the telephony platform.
 */
module CallFlow {
  import opened Decimal

  const Title := "Survey Call Step"
  const Voice := "male"
  const Language := "en-US"
  const FinishOnKey := "any"
  const RecordTimeout := 10
  const CompletionMessage := "You have completed our survey. Thank you for participating!"
  const WelcomeBefore := "Welcome to our survey! You will be asked "
  const WelcomeAfter := " questions. The answers will be recorded. Speak your response for each and press any key on your phone to move on to the next question. Here is the first question:"

  /** One step of a flow: the `action` name with its `options` object. */
  datatype Step =
    | Say(payload: string, voice: string, language: string)
    | Record(finishOnKey: string, timeout: int, onFinish: string)

  datatype Flow = Flow(title: string, steps: seq<Step>)

  /**
   * What one callback produces: the flow document, or the IndexOutOfBoundsException that
   * `questions.get(index)` raises when the index is past the end of the catalog.
   */
  datatype Outcome = Done(flow: Flow) | QuestionOutOfRange(index: nat, size: nat)

  /** The "say" step for a payload, always in the survey's voice and language. */
  function SayStep(payload: string): (s: Step)
    ensures s.Say? && s.payload == payload
    ensures s.voice == "male" && s.language == "en-US"
  {
    Say(payload, Voice, Language)
  }

  /** The "record" step; its completion callback is this same call-step endpoint on `host`. */
  function RecordStep(host: string): (s: Step)
    ensures s.Record? && s.finishOnKey == "any" && s.timeout == 10
    ensures s.onFinish == "http://" + host + "/callStep"
  {
    Record(FinishOnKey, RecordTimeout, "http://" + host + "/callStep")
  }

  /**
   * The welcome text, announcing the number of questions: the fixed opening and closing
   * sentences around the count in decimal, which can be read back from between them.
   */
  function WelcomeMessage(count: nat): (m: string)
    ensures |m| > |WelcomeBefore| + |WelcomeAfter|
    ensures m[..|WelcomeBefore|] == WelcomeBefore
    ensures m[|m| - |WelcomeAfter|..] == WelcomeAfter
    ensures AllDigits(m[|WelcomeBefore|..|m| - |WelcomeAfter|])
    ensures DecimalValue(m[|WelcomeBefore|..|m| - |WelcomeAfter|]) == count
    ensures |m| == |WelcomeBefore| + |WelcomeAfter| + 1 || m[|WelcomeBefore|] != '0'
  {
    var digits := NatToDecimal(count);
    var m := WelcomeBefore + digits + WelcomeAfter;
    assert m[|WelcomeBefore|..|m| - |WelcomeAfter|] == digits;
    assert m[|WelcomeBefore|] == digits[0];
    DecimalRoundTrip(count);
    m
  }

  /** The welcome text states the count unambiguously: different counts give different texts. */
  lemma WelcomeDeterminesCount(a: nat, b: nat)
    requires WelcomeMessage(a) == WelcomeMessage(b)
    ensures a == b
  {
  }

  /** Every say step speaks in the survey voice and every record step calls back to `host`. */
  predicate UsesSurveySettings(steps: seq<Step>, host: string) {
    forall i :: 0 <= i < |steps| ==>
      (steps[i].Say? ==> steps[i].voice == Voice && steps[i].language == Language) &&
      (steps[i].Record? ==> steps[i] == RecordStep(host))
  }

  predicate HasRecordStep(steps: seq<Step>) {
    exists i :: 0 <= i < |steps| && steps[i].Record?
  }

  /**
   * The flow for question number `questionId` of `questions`: the completion message when the
   * number equals the catalog size, otherwise (after a welcome for question 0) the question
   * and a record step; past the end of the catalog the lookup fails.
   */
  function NextFlow(questionId: nat, questions: seq<string>, host: string): (o: Outcome)
    ensures o.QuestionOutOfRange? <==> questionId > |questions|
    ensures o.QuestionOutOfRange? ==> o.index == questionId && o.size == |questions|
    ensures o.Done? ==> o.flow.title == "Survey Call Step"
    ensures o.Done? ==> (o.flow.steps == [SayStep(CompletionMessage)] <==> questionId == |questions|)
    ensures questionId == 0 < |questions| ==>
              o.flow.steps == [SayStep(WelcomeMessage(|questions|)), SayStep(questions[0]), RecordStep(host)]
    ensures 0 < questionId < |questions| ==> o.flow.steps == [SayStep(questions[questionId]), RecordStep(host)]
  {
    if questionId == |questions| then
      Done(Flow(Title, [SayStep(CompletionMessage)]))
    else if questionId > |questions| then
      QuestionOutOfRange(questionId, |questions|)
    else
      var welcome := if questionId == 0 then [SayStep(WelcomeMessage(|questions|))] else [];
      var steps := welcome + [SayStep(questions[questionId]), RecordStep(host)];
      assert steps[|steps| - 1].Record?;
      Done(Flow(Title, steps))
  }

  /**
   * Every flow speaks in the survey voice, sends its recordings back to `host`, and asks for a
   * recording exactly while questions remain.
   */
  lemma NextFlowSettings(questionId: nat, questions: seq<string>, host: string)
    ensures NextFlow(questionId, questions, host).Done? ==>
              && UsesSurveySettings(NextFlow(questionId, questions, host).flow.steps, host)
              && (HasRecordStep(NextFlow(questionId, questions, host).flow.steps) <==> questionId < |questions|)
  {
    var o := NextFlow(questionId, questions, host);
    if questionId == 0 < |questions| {
      assert o.flow.steps == [SayStep(WelcomeMessage(|questions|)), SayStep(questions[0]), RecordStep(host)];
      assert o.flow.steps[2].Record?;
    } else if 0 < questionId < |questions| {
      assert o.flow.steps == [SayStep(questions[questionId]), RecordStep(host)];
      assert o.flow.steps[1].Record?;
    } else if questionId == |questions| {
      assert o.flow.steps == [SayStep(CompletionMessage)];
    }
  }
}
