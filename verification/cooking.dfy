/**
  Vocabulary shared by the three cooking-session revisions: the classifier's
  reply, the effects a transition emits instead of touching the browser, and
  the small helpers every revision applies the same way.
 */
module Cooking {
  import opened Wrappers
  import JsText

  /**
    The assistant endpoint's JSON reply `{ action, answer, time, unit }`.
    `time` is the number `parseInt(data.time, 10)` yields; `None` is absent.
   */
  datatype Reply = Reply(action: Option<string>, answer: Option<string>, time: Option<nat>, unit: Option<string>)

  /** How the classification request ended: it threw, or it answered with a body (`null` is `None`). */
  datatype Classified = ClassifyFailed | Classified(data: Option<Reply>)

  /** Everything a transition asks the browser to do. */
  datatype Effect =
    | Speak(text: string)      // playCloudTTS(text)
    | SpeakUndefined           // playCloudTTS(undefined), an out-of-range instruction
    | Alert(msg: string)
    | StartAlarm               // new looping Audio("/alarm.mp3")
    | StopAlarm                // pause and rewind the alarm clip
    | Warn(msg: string)        // console.warn
    | LogError(msg: string)    // console.error
    | Navigate(path: string)
    | Classify(question: string)
    | StartCapture             // recognition.start()
    | StopCapture              // recognition.stop()

  const MINUTE_UNIT := "분"
  const CLASSIFY_ERROR := "AI 응답 오류"

  /** JavaScript truthiness of an optional string. */
  predicate Present(o: Option<string>) {
    o.Some? && o.value != ""
  }

  /** Truthiness of `data.time`: absent and 0 are both falsy. */
  predicate TimeGiven(t: Option<nat>) {
    t.Some? && t.value != 0
  }

  /** `data.action === name`. */
  predicate IsAction(data: Option<Reply>, name: string) {
    data.Some? && data.value.action == Some(name)
  }

  /** `recipe.instructions[step]`: `undefined` outside the list. */
  function StepText(ins: seq<string>, step: int): (r: Option<string>)
    ensures r.Some? <==> 0 <= step < |ins|
    ensures r.Some? ==> r.value == ins[step]
  {
    if 0 <= step < |ins| then Some(ins[step]) else None
  }

  function Min(a: int, b: int): int { if a <= b then a else b }
  function Max(a: int, b: int): int { if a >= b then a else b }

  /** `playCloudTTS(recipe.instructions[step])` with no truthiness check: a missing instruction is spoken as `undefined`. */
  function StepSpeech(ins: seq<string>, step: int): (r: seq<Effect>)
    ensures |r| == 1
    ensures 0 <= step < |ins| ==> r[0] == Speak(ins[step])
    ensures !(0 <= step < |ins|) ==> r[0] == SpeakUndefined
  {
    match StepText(ins, step)
    case Some(text) => [Speak(text)]
    case None => [SpeakUndefined]
  }

  /** The confirmation every `setCookingTimer` narrates: "<seconds>초 타이머를 설정했습니다.". */
  function TimerSetMessage(seconds: nat): string {
    JsText.NatToString(seconds) + "초 타이머를 설정했습니다."
  }

  /**
    The effect hook on `currentStep`, as it runs on mount and after each
    change: a non-empty instruction at the index is narrated.
   */
  function StepHook(ins: seq<string>, step: int): (r: seq<Effect>)
    ensures |r| <= 1
    ensures |r| == 1 <==> Present(StepText(ins, step))
    ensures |r| == 1 ==> r[0] == Speak(ins[step])
  {
    if Present(StepText(ins, step)) then [Speak(ins[step])] else []
  }

  /** The `response` action: a truthy answer is spoken, anything else is silent. */
  function AnswerSpeech(answer: Option<string>): (r: seq<Effect>)
    ensures Present(answer) <==> r != []
    ensures Present(answer) ==> r == [Speak(answer.value)]
  {
    if Present(answer) then [Speak(answer.value)] else []
  }

  /** The hook only runs when the index actually changed. */
  function StepNarration(ins: seq<string>, before: int, after: int): (r: seq<Effect>)
    ensures before == after ==> r == []
    ensures before != after ==> r == StepHook(ins, after)
  {
    if before != after then StepHook(ins, after) else []
  }
}
