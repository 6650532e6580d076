/**
  The inline `CookingPage` of front/checkpoint.js, an earlier single-file
  revision: manual and voice navigation share `handleNextStep` /
  `handlePreviousStep`, `setCookingTimer` ignores non-positive durations and
  `set_timer` only starts a timer for minutes. Its alarm code reads
  identifiers the component never declares, so only the timer fields are
  modelled; `cancel_timer` reaches that code and throws.
 */
module CheckpointCooking {
  import opened Wrappers
  import opened Cooking
  import JsText

  /**
    The step index, the timer slot, the assistant's on/off flag, the
    `currentStep` that the recogniser's `onresult` closure captured when
    `startListening` created it (`None` while no recogniser exists), and
    whether the recognition engine has been started and has not ended yet.
    The closure is bound once, so every later voice command runs the
    handlers of that render; `stop()` only asks the engine to end.
   */
  datatype State = State(step: int, timer: Option<nat>, timeLeft: nat, timerActive: bool,
                         assistantOn: bool, listenerStep: Option<int>, engineStarted: bool)

  datatype Event =
    | Next
    | Previous
    | Toggle(supported: bool)                  // the assistant button, in a browser with or without speech recognition
    | Heard(question: string, outcome: Classified)
    | EngineStarted                            // the recogniser's `onstart`
    | EngineEnded                              // the recogniser's `onend`

  const Initial := State(0, None, 0, false, false, None, false)

  const COOKING_COMPLETE := "요리가 완료되었습니다!"
  const NO_PREVIOUS_STEP := "더 이상 이전 단계가 없습니다!"
  const UNSUPPORTED := "음성 인식을 지원하지 않는 브라우저입니다."
  /** The uncaught exception the browser reports when `start()` finds the engine still running. */
  const START_REFUSED := "InvalidStateError"

  /** The index stays within `0 .. max(len - 1, 0)`. */
  predicate InBounds(ins: seq<string>, step: int) {
    0 <= step && (step <= |ins| - 1 || step == 0)
  }

  /**
    `handleNextStep` of the render whose `currentStep` was `seen`: the test
    reads `seen`, the functional update advances the live step. The buttons
    run the current render's handler, where `seen` is the live step.
   */
  function NextStep(ins: seq<string>, seen: int, s: State): (r: (State, seq<Effect>))
    ensures seen < |ins| - 1 ==> r.0 == s.(step := s.step + 1)
    ensures seen < |ins| - 1 ==> r.1 == StepHook(ins, s.step + 1)
    ensures seen >= |ins| - 1 ==> r == (s, [Speak(COOKING_COMPLETE)])
  {
    if seen < |ins| - 1 then (s.(step := s.step + 1), StepNarration(ins, s.step, s.step + 1))
    else (s, [Speak(COOKING_COMPLETE)])
  }

  /** `handlePreviousStep` of the render whose `currentStep` was `seen`: retreat when `seen > 0`, otherwise alert. */
  function PreviousStep(ins: seq<string>, seen: int, s: State): (r: (State, seq<Effect>))
    ensures seen > 0 ==> r.0 == s.(step := s.step - 1)
    ensures seen > 0 ==> r.1 == StepHook(ins, s.step - 1)
    ensures seen <= 0 ==> r == (s, [Alert(NO_PREVIOUS_STEP)])
  {
    if seen > 0 then (s.(step := s.step - 1), StepNarration(ins, s.step, s.step - 1))
    else (s, [Alert(NO_PREVIOUS_STEP)])
  }

  /** `setCookingTimer(seconds)`: a non-positive duration changes nothing and says nothing. */
  function SetCookingTimer(s: State, seconds: int): (r: (State, seq<Effect>))
    ensures seconds <= 0 ==> r == (s, [])
    ensures seconds > 0 ==>
      && r.0 == s.(timer := Some(seconds), timeLeft := seconds, timerActive := true)
      && r.1 == [Speak(TimerSetMessage(seconds))]
  {
    if seconds > 0 then
      (s.(timeLeft := seconds, timer := Some(seconds), timerActive := true), [Speak(TimerSetMessage(seconds))])
    else (s, [])
  }

  /** `${data.unit}`: an absent unit renders as "undefined". */
  function UnitText(unit: Option<string>): string {
    match unit
    case Some(u) => u
    case None => "undefined"
  }

  /**
    `set_timer` with a truthy time: minutes start a timer of `time * 60`
    seconds; any unit is then confirmed as "<time><unit> 타이머를 설정했습니다.",
    which supersedes the timer's own confirmation in the narration slot.
   */
  function SetTimerAction(s: State, reply: Reply): (r: (State, seq<Effect>))
    ensures !TimeGiven(reply.time) ==> r == (s, [])
    ensures TimeGiven(reply.time) && reply.unit != Some(MINUTE_UNIT) ==>
      r.0 == s && |r.1| == 1
    ensures TimeGiven(reply.time) && reply.unit == Some(MINUTE_UNIT) ==>
      && r.0 == s.(timer := Some(60 * reply.time.value), timeLeft := 60 * reply.time.value, timerActive := true)
      && |r.1| == 2 && r.1[0] == Speak(TimerSetMessage(60 * reply.time.value))
    ensures TimeGiven(reply.time) ==>
      r.1[|r.1| - 1] == Speak(JsText.NatToString(reply.time.value) + UnitText(reply.unit) + " 타이머를 설정했습니다.")
  {
    if !TimeGiven(reply.time) then (s, [])
    else
      var time := reply.time.value;
      var (t, effs) := if reply.unit == Some(MINUTE_UNIT) then SetCookingTimer(s, time * 60) else (s, []);
      (t, effs + [Speak(JsText.NatToString(time) + UnitText(reply.unit) + " 타이머를 설정했습니다.")])
  }

  /**
    `cancel_timer`: the three resets are queued, then `stopAlarm` reads the
    undeclared `alarmAudioRef`; the `ReferenceError` is caught and logged by
    `fetchAIResponse`, so the closing narration is never spoken.
   */
  function CancelTimerAction(s: State): (r: (State, seq<Effect>))
    ensures r.0 == s.(timer := None, timeLeft := 0, timerActive := false)
    ensures r.1 == [LogError(CLASSIFY_ERROR)]
  {
    (s.(timer := None, timeLeft := 0, timerActive := false), [LogError(CLASSIFY_ERROR)])
  }

  predicate IsKnown(action: string) {
    action in {"next_step", "prev_step", "repeat_step", "set_timer", "cancel_timer", "navigate_home", "response"}
  }

  /**
    `handleAssistantAction(data)` of the render whose `currentStep` was
    `seen`: next, previous and repeat test `seen`, while a move shifts the
    live step by one.
   */
  function Dispatch(ins: seq<string>, seen: int, s: State, data: Option<Reply>): (r: (State, seq<Effect>))
    ensures r.0.assistantOn == s.assistantOn && r.0.listenerStep == s.listenerStep && r.0.engineStarted == s.engineStarted
    ensures r.0.step == s.step
      || (IsAction(data, "next_step") && seen < |ins| - 1 && r.0.step == s.step + 1)
      || (IsAction(data, "prev_step") && seen > 0 && r.0.step == s.step - 1)
    ensures IsAction(data, "next_step") && seen < |ins| - 1 ==> r.0.step == s.step + 1
    ensures IsAction(data, "next_step") && seen >= |ins| - 1 ==> r == (s, [Speak(COOKING_COMPLETE)])
    ensures IsAction(data, "prev_step") && seen > 0 ==> r.0.step == s.step - 1
    ensures IsAction(data, "prev_step") && seen <= 0 ==> r == (s, [Alert(NO_PREVIOUS_STEP)])
    ensures data.None? || !Present(data.value.action) ==> r == (s, [])
    ensures IsAction(data, "repeat_step") || IsAction(data, "response") || IsAction(data, "navigate_home") ==> r.0 == s
    ensures IsAction(data, "navigate_home") ==> r.1 == [Navigate("/")]
    ensures IsAction(data, "repeat_step") ==> r.1 == StepHook(ins, seen)
    ensures IsAction(data, "set_timer") ==> r == SetTimerAction(s, data.value)
    ensures IsAction(data, "cancel_timer") ==> r == CancelTimerAction(s)
    ensures IsAction(data, "response") ==> r.1 == AnswerSpeech(data.value.answer)
    ensures data.Some? && Present(data.value.action) && !IsKnown(data.value.action.value) ==>
      r == (s, [Warn(data.value.action.value)])
  {
    if data.None? || !Present(data.value.action) then (s, [])
    else
      var reply := data.value;
      match reply.action.value
      case "next_step" => NextStep(ins, seen, s)
      case "prev_step" => PreviousStep(ins, seen, s)
      case "repeat_step" => (s, StepHook(ins, seen))
      case "set_timer" => SetTimerAction(s, reply)
      case "cancel_timer" => CancelTimerAction(s)
      case "navigate_home" => (s, [Navigate("/")])
      case "response" => if Present(reply.answer) then (s, [Speak(reply.answer.value)]) else (s, [])
      case other => (s, [Warn(other)])
  }

  /**
    `toggleAssistant()`: when on, ask the recogniser (if any) to stop and
    switch off; the engine runs on until its `onend`. When off, run
    `startListening`: create the recogniser, and with it the closure that
    captures the current step, if none exists (`isListening` is never set in
    this revision, so only the missing recogniser gates the creation); an
    unsupported browser logs an error and returns, and is still marked on.
    Then `start()`, outside any `try`: on an engine that has not ended it
    throws `InvalidStateError` out of the handler, so the flag stays off.
   */
  function ToggleAction(supported: bool, s: State): (r: (State, seq<Effect>))
    ensures r.0.step == s.step && r.0.timer == s.timer && r.0.timeLeft == s.timeLeft && r.0.timerActive == s.timerActive
    ensures s.assistantOn ==>
      r == (s.(assistantOn := false), if s.listenerStep.Some? then [StopCapture] else [])
    ensures !s.assistantOn && s.listenerStep.None? && !supported ==> r == (s.(assistantOn := true), [LogError(UNSUPPORTED)])
    ensures !s.assistantOn && s.listenerStep.Some? && s.engineStarted ==> r == (s, [LogError(START_REFUSED)])
    ensures !s.assistantOn && !s.engineStarted && (s.listenerStep.Some? || supported) ==>
      r.0.assistantOn && r.0.engineStarted && r.1 == [StartCapture]
    ensures s.listenerStep.Some? ==> r.0.listenerStep == s.listenerStep
    ensures s.listenerStep.None? && !s.assistantOn && supported ==> r.0.listenerStep == Some(s.step)
    ensures s.listenerStep.None? && (s.assistantOn || !supported) ==> r.0.listenerStep.None?
    ensures StartCapture in r.1 <==> !s.assistantOn && !s.engineStarted && (s.listenerStep.Some? || supported)
  {
    if s.assistantOn then (s.(assistantOn := false), if s.listenerStep.Some? then [StopCapture] else [])
    else if s.listenerStep.None? && !supported then (s.(assistantOn := true), [LogError(UNSUPPORTED)])
    else
      var t := if s.listenerStep.None? then s.(listenerStep := Some(s.step)) else s;
      if t.engineStarted then (t, [LogError(START_REFUSED)])
      else (t.(engineStarted := true, assistantOn := true), [StartCapture])
  }

  /**
    What a run can reach. Before a recogniser exists only the buttons move
    the step, so it stays in bounds, and the captured step is such a step.
    After that the voice commands move the live step by one whenever the
    captured step allows it: upwards without limit if the captured step was
    below the last one, downwards without limit if it was above 0. So only
    the direction the captured step rules out stays bounded.
   */
  predicate Reachable(ins: seq<string>, s: State) {
    && (s.engineStarted ==> s.listenerStep.Some?)
    && (s.listenerStep.None? ==> InBounds(ins, s.step))
    && (s.listenerStep.Some? ==> InBounds(ins, s.listenerStep.value))
    && (s.listenerStep.None? || s.listenerStep.value <= 0 ==> 0 <= s.step)
    && (s.listenerStep.None? || s.listenerStep.value >= |ins| - 1 ==> s.step <= |ins| - 1 || s.step <= 0)
  }

  /**
    One page event. A transcript arrives from a running engine, even after
    the assistant was switched off and before the engine ended;
    `fetchAIResponse` drops only an empty one, and the rest run the captured
    handlers. `onstart` marks the assistant on; `onend` reads the
    `isAssistantOn` captured at creation, which was false, so it never
    restarts the engine.
   */
  function Step(ins: seq<string>, s: State, e: Event): (r: (State, seq<Effect>))
    requires Reachable(ins, s)
    ensures Reachable(ins, r.0)
    ensures e.Heard? && (e.question == "" || !s.engineStarted) ==> r == (s, [])
    ensures e.Heard? && e.question != "" && s.engineStarted ==> |r.1| >= 1 && r.1[0] == Classify(e.question)
    ensures e.Heard? ==> r.0.listenerStep == s.listenerStep && r.0.assistantOn == s.assistantOn
    ensures e.EngineStarted? ==> r == (if s.engineStarted then s.(assistantOn := true) else s, [])
    ensures e.EngineEnded? ==> r == (s.(engineStarted := false), [])
    ensures e.Next? ==> r == NextStep(ins, s.step, s)
    ensures e.Previous? ==> r == PreviousStep(ins, s.step, s)
  {
    match e
    case Next => NextStep(ins, s.step, s)
    case Previous => PreviousStep(ins, s.step, s)
    case Toggle(supported) => ToggleAction(supported, s)
    case EngineStarted => (if s.engineStarted then s.(assistantOn := true) else s, [])
    case EngineEnded => (s.(engineStarted := false), [])
    case Heard(q, outcome) =>
      if q == "" || !s.engineStarted then (s, [])
      else
        match outcome
        case ClassifyFailed => (s, [Classify(q), LogError(CLASSIFY_ERROR)])
        case Classified(data) =>
          var (t, effs) := Dispatch(ins, s.listenerStep.value, s, data);
          (t, [Classify(q)] + effs)
  }

  /** The session from mount: the step hook narrates the first instruction, then each event applies. */
  function Run(ins: seq<string>, evs: seq<Event>): (r: (State, seq<Effect>))
    ensures Reachable(ins, r.0)
    ensures r.0.listenerStep.None? ==> InBounds(ins, r.0.step)
    decreases |evs|
  {
    if evs == [] then (Initial, StepHook(ins, 0))
    else
      var (s, e1) := Run(ins, evs[..|evs| - 1]);
      var (t, e2) := Step(ins, s, evs[|evs| - 1]);
      (t, e1 + e2)
  }

  /**
    A heard `cancel_timer` clears the timer but keeps the step, and the only
    thing said after the request is the logged error: the closing narration
    never comes.
   */
  lemma HeardCancelClearsTimerSilently(ins: seq<string>, s: State, q: string, reply: Reply)
    requires Reachable(ins, s) && q != "" && s.engineStarted
    requires reply.action == Some("cancel_timer")
    ensures Step(ins, s, Heard(q, Classified(Some(reply))))
      == (s.(timer := None, timeLeft := 0, timerActive := false), [Classify(q), LogError(CLASSIFY_ERROR)])
  {
    var d := Dispatch(ins, s.listenerStep.value, s, Some(reply));
    assert d == CancelTimerAction(s);
    assert [Classify(q)] + d.1 == [Classify(q), LogError(CLASSIFY_ERROR)];
  }

  /** Only minutes start a timer: "초" or any other unit leaves the timer untouched. */
  lemma OnlyMinutesStartATimer(ins: seq<string>, s: State, q: string, reply: Reply)
    requires Reachable(ins, s) && q != ""
    requires reply.action == Some("set_timer") && reply.unit != Some(MINUTE_UNIT)
    ensures Step(ins, s, Heard(q, Classified(Some(reply)))).0 == s
  {
  }

  /** While the step has not moved since the recogniser was created, the voice `next_step` is the next button. */
  lemma VoiceNextIsButtonNext(ins: seq<string>, s: State, q: string, reply: Reply)
    requires Reachable(ins, s) && q != "" && s.engineStarted && s.listenerStep == Some(s.step)
    requires reply.action == Some("next_step")
    ensures Step(ins, s, Heard(q, Classified(Some(reply)))) == (NextStep(ins, s.step, s).0, [Classify(q)] + NextStep(ins, s.step, s).1)
  {
  }

  /**
    The voice `next_step` tests the captured step, not the live one: with
    the recogniser created on an earlier step, it advances even from the last
    instruction, past the end of the recipe, and narrates nothing there.
   */
  lemma VoiceNextIgnoresTheLiveStep(ins: seq<string>, s: State, q: string, reply: Reply)
    requires Reachable(ins, s) && q != "" && s.engineStarted
    requires s.listenerStep.value < |ins| - 1 && s.step == |ins| - 1
    requires reply.action == Some("next_step")
    ensures var r := Step(ins, s, Heard(q, Classified(Some(reply))));
      r.0.step == |ins| && !InBounds(ins, r.0.step) && r.1 == [Classify(q)]
  {
  }

  /**
    Two instructions: switch the assistant on at the first, press Next, then
    say "next". The step leaves the recipe.
   */
  lemma SwitchOnPressNextSayNext(q: string, reply: Reply)
    requires q != "" && reply.action == Some("next_step")
    ensures var evs := [Toggle(true), Next, Heard(q, Classified(Some(reply)))];
      Run(["a", "b"], evs).0.step == 2
  {
    var ins := ["a", "b"];
    var e1 := [Toggle(true)];
    var e2 := e1 + [Next];
    var e3 := e2 + [Heard(q, Classified(Some(reply)))];
    assert e1[..0] == [] && e2[..1] == e1 && e3[..2] == e2;
    var s1 := Step(ins, Initial, Toggle(true)).0;
    assert s1 == Initial.(assistantOn := true, listenerStep := Some(0), engineStarted := true);
    assert Run(ins, e1).0 == s1;
    var s2 := Step(ins, s1, Next).0;
    assert s2 == s1.(step := 1);
    assert Run(ins, e2).0 == s2;
    assert Step(ins, s2, Heard(q, Classified(Some(reply)))).0.step == 2;
    assert Run(ins, e3).0 == Step(ins, s2, Heard(q, Classified(Some(reply)))).0;
    assert e3 == [Toggle(true), Next, Heard(q, Classified(Some(reply)))];
  }

  /**
    Switching off and straight back on before the engine reports its end:
    `start()` throws out of the handler, so the assistant stays off and no
    second capture starts.
   */
  lemma QuickRetoggleLeavesItOff(ins: seq<string>, s: State)
    requires Reachable(ins, s) && s.assistantOn && s.engineStarted
    ensures var off := Step(ins, s, Toggle(true));
      var on := Step(ins, off.0, Toggle(true));
      off.1 == [StopCapture] && !on.0.assistantOn && on.0.engineStarted && on.1 == [LogError(START_REFUSED)]
  {
  }

  /**
    Once the engine has ended, the same button press starts it again on the
    recogniser created before, with the step it captured then.
   */
  lemma RetoggleAfterEndRestarts(ins: seq<string>, s: State)
    requires Reachable(ins, s) && s.assistantOn && s.engineStarted
    ensures var off := Step(ins, s, Toggle(true));
      var ended := Step(ins, off.0, EngineEnded);
      var on := Step(ins, ended.0, Toggle(true));
      on.0.assistantOn && on.0.engineStarted && on.0.listenerStep == s.listenerStep && on.1 == [StartCapture]
  {
  }

  /**
    A final result the engine delivers after the assistant was switched off
    is still sent to the classifier: nothing but an empty question is
    dropped.
   */
  lemma ResultAfterSwitchOffIsClassified(ins: seq<string>, s: State, q: string, outcome: Classified)
    requires Reachable(ins, s) && !s.assistantOn && s.engineStarted && q != ""
    ensures var r := Step(ins, s, Heard(q, outcome));
      |r.1| >= 1 && r.1[0] == Classify(q) && !r.0.assistantOn
  {
  }
}
