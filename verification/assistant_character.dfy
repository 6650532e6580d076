/**
  The character-voiced cooking assistant of
  front/front/src/components/CookingAssistant.js. Compared with the front/src
  revision it has no countdown and no alarm, guards the classifier call on a
  selected character, guards `recognition.start()` on the listening flag, and
  its `cancel_timer` throws half-way through.
 */
module CharacterAssistant {
  import opened Wrappers
  import opened Cooking

  /**
    What the recogniser's `onresult` closure captured from the render that
    created it: that render's `currentStep` and selected character. The
    closure is bound once, so every later transcript runs those handlers.
   */
  datatype Listener = Listener(step: int, character: Option<string>)

  /**
    The step index shared with the page, the timer slot, the two React flags
    of the voice control, the recogniser in `recognitionRef` (if any) with
    what it captured, whether its engine has been started and has not ended
    yet, and the character currently selected in the character context.
   */
  datatype State = State(
    step: int,
    timer: Option<nat>,
    timeLeft: nat,
    timerActive: bool,
    assistantOn: bool,
    listening: bool,
    listener: Option<Listener>,
    engineStarted: bool,
    character: Option<string>)

  datatype Event =
    | Heard(question: string, outcome: Classified)  // `onresult` with a transcript
    | CancelPressed   // the timer's cancel button (`onStop`)
    | Toggle          // the assistant on/off button
    | EngineStarted   // the recogniser's `onstart`
    | EngineFailed    // the recogniser's `onerror`
    | EngineEnded     // the recogniser's `onend`
    | CharacterChanged(selected: Option<string>)  // another character picked in the context

  /** The view as it mounts, with the character already selected (or not). */
  function Mount(character: Option<string>): State {
    State(0, None, 0, false, false, false, None, false, character)
  }

  const SELECT_CHARACTER := "먼저 상단에서 캐릭터를 선택해주세요."
  const UNSUPPORTED := "음성 인식을 지원하지 않는 브라우저입니다."
  const ALREADY_LISTENING := "이미 음성 인식이 실행 중입니다."

  /**
    With no countdown the timer slot is either empty, or holds a running
    timer whose `timeLeft` still equals the duration it was set to.
   */
  predicate TimerConsistent(s: State) {
    || (s.timer.None? && s.timeLeft == 0 && !s.timerActive)
    || (s.timer == Some(s.timeLeft) && s.timeLeft > 0 && s.timerActive)
  }

  /** The engine only runs on a recogniser that exists. */
  predicate Valid(s: State) {
    TimerConsistent(s) && (s.engineStarted ==> s.listener.Some?)
  }

  /** Everything but the timer slot, for "nothing else changes" statements. */
  function NonTimerPart(s: State): (int, bool, bool, Option<Listener>, bool, Option<string>) {
    (s.step, s.assistantOn, s.listening, s.listener, s.engineStarted, s.character)
  }

  /** `setCookingTimer(seconds)`: no positivity guard. */
  function SetCookingTimer(s: State, seconds: nat): (r: (State, seq<Effect>))
    ensures r.0.timer == Some(seconds) && r.0.timeLeft == seconds && r.0.timerActive
    ensures NonTimerPart(r.0) == NonTimerPart(s)
    ensures r.1 == [Speak(TimerSetMessage(seconds))]
  {
    (s.(timeLeft := seconds, timer := Some(seconds), timerActive := true), [Speak(TimerSetMessage(seconds))])
  }

  /** `stopAlarm()`: the alarm clip is never loaded in this revision, so only the timer is cleared. */
  function StopAlarmAction(s: State): (r: State)
    ensures r.timer.None? && r.timeLeft == 0 && !r.timerActive
    ensures NonTimerPart(r) == NonTimerPart(s)
  {
    s.(timer := None, timeLeft := 0, timerActive := false)
  }

  /**
    `cancel_timer`: the three resets are queued, then `timerActive(false)`
    calls a boolean and throws a `TypeError`; `stopAlarm` is skipped and
    `fetchAIResponse` logs the error.
   */
  function CancelTimerAction(s: State): (r: (State, seq<Effect>))
    ensures r.0.timer.None? && r.0.timeLeft == 0 && !r.0.timerActive
    ensures NonTimerPart(r.0) == NonTimerPart(s)
    ensures r.1 == [LogError(CLASSIFY_ERROR)]
  {
    (s.(timer := None, timeLeft := 0, timerActive := false), [LogError(CLASSIFY_ERROR)])
  }

  predicate IsKnown(action: string) {
    action in {"next_step", "prev_step", "repeat_step", "set_timer", "cancel_timer", "response"}
  }

  /**
    `handleAssistantAction(data)` of the render whose `currentStep` was
    `seen`; a thrown error ends in the caller's `LogError`. The step moves
    are functional updates of the live step, but `repeat_step` reads `seen`.
   */
  function Dispatch(ins: seq<string>, seen: int, s: State, data: Option<Reply>): (r: (State, seq<Effect>))
    requires Valid(s)
    ensures Valid(r.0)
    ensures r.0.assistantOn == s.assistantOn && r.0.listening == s.listening && r.0.character == s.character
    ensures r.0.listener == s.listener && r.0.engineStarted == s.engineStarted
    ensures StartCapture !in r.1
    ensures data.None? || !Present(data.value.action) ==> r == (s, [])
    ensures IsAction(data, "next_step") ==> r.0.step == Min(s.step + 1, |ins| - 1) && r.0.timer == s.timer
    ensures IsAction(data, "prev_step") ==> r.0.step == Max(s.step - 1, 0) && r.0.timer == s.timer
    ensures IsAction(data, "next_step") || IsAction(data, "prev_step") ==> r.1 == StepNarration(ins, s.step, r.0.step)
    ensures IsAction(data, "repeat_step") || IsAction(data, "response") ==> r.0 == s
    ensures IsAction(data, "repeat_step") ==> r.1 == StepSpeech(ins, seen)
    ensures IsAction(data, "set_timer") && TimeGiven(data.value.time) ==>
      var seconds := if data.value.unit == Some(MINUTE_UNIT) then 60 * data.value.time.value else data.value.time.value;
      r.0.timer == Some(seconds) && r.0.timeLeft == seconds && r.0.timerActive && r.0.step == s.step
    ensures IsAction(data, "cancel_timer") ==>
      r.0 == StopAlarmAction(s) && r.1 == [LogError(CLASSIFY_ERROR)]
    ensures data.Some? && Present(data.value.action) && !IsKnown(data.value.action.value) ==>
      r == (s, [Warn(data.value.action.value)])
  {
    if data.None? || !Present(data.value.action) then (s, [])
    else
      var reply := data.value;
      match reply.action.value
      case "next_step" => MoveTo(ins, s, Min(s.step + 1, |ins| - 1))
      case "prev_step" => MoveTo(ins, s, Max(s.step - 1, 0))
      case "repeat_step" => (s, StepSpeech(ins, seen))
      case "set_timer" => SetTimerAction(s, reply)
      case "cancel_timer" => CancelTimerAction(s)
      case "response" => (s, AnswerSpeech(reply.answer))
      case other => (s, [Warn(other)])
  }

  /** `set_timer`: a truthy time, in minutes when the unit is "분", otherwise taken as seconds. */
  function SetTimerAction(s: State, reply: Reply): (r: (State, seq<Effect>))
    requires Valid(s)
    ensures Valid(r.0) && NonTimerPart(r.0) == NonTimerPart(s)
    ensures StartCapture !in r.1
    ensures !TimeGiven(reply.time) ==> r == (s, [])
    ensures TimeGiven(reply.time) ==>
      var seconds := if reply.unit == Some(MINUTE_UNIT) then 60 * reply.time.value else reply.time.value;
      r.0.timer == Some(seconds) && r.0.timeLeft == seconds && r.0.timerActive
  {
    if TimeGiven(reply.time) then
      SetCookingTimer(s, if reply.unit == Some(MINUTE_UNIT) then reply.time.value * 60 else reply.time.value)
    else (s, [])
  }

  /** A step change: only the index moves, and the step hook narrates the new step. */
  function MoveTo(ins: seq<string>, s: State, target: int): (r: (State, seq<Effect>))
    requires Valid(s)
    ensures Valid(r.0) && r.0.step == target
    ensures r.0.timer == s.timer && r.0.timeLeft == s.timeLeft && r.0.timerActive == s.timerActive
    ensures r.0.assistantOn == s.assistantOn && r.0.listening == s.listening && r.0.character == s.character
    ensures r.0.listener == s.listener && r.0.engineStarted == s.engineStarted
    ensures r.1 == StepNarration(ins, s.step, target)
    ensures StartCapture !in r.1
  {
    (s.(step := target), StepNarration(ins, s.step, target))
  }

  /**
    `startListening()` in a browser with (`supported`) or without speech
    recognition: create the recogniser once, capturing the current step and
    character, and call `start()` only while not listening; a start on an
    engine that is still running raises `InvalidStateError`, which is
    reported as a warning.
   */
  function StartListening(supported: bool, s: State): (r: (State, seq<Effect>))
    requires Valid(s)
    ensures Valid(r.0)
    ensures !supported ==> r == (s, [LogError(UNSUPPORTED)])
    ensures supported && s.listener.None? ==> r.0.listener == Some(Listener(s.step, s.character))
    ensures s.listener.Some? ==> r.0.listener == s.listener
    ensures StartCapture in r.1 <==> supported && !s.listening && !s.engineStarted
    ensures StartCapture in r.1 ==> r.0.engineStarted && r.1 == [StartCapture]
    ensures Warn(ALREADY_LISTENING) in r.1 <==> supported && !s.listening && s.engineStarted
    ensures r.0.step == s.step && r.0.timer == s.timer && r.0.timeLeft == s.timeLeft
    ensures r.0.assistantOn == s.assistantOn && r.0.listening == s.listening && r.0.character == s.character
  {
    if !supported then (s, [LogError(UNSUPPORTED)])
    else
      var t := if s.listener.None? then s.(listener := Some(Listener(s.step, s.character))) else s;
      if s.listening then (t, [])
      else if s.engineStarted then (t, [Warn(ALREADY_LISTENING)])
      else (t.(engineStarted := true), [StartCapture])
  }

  /**
    `toggleAssistant()`: stop (and drop both flags) when on, otherwise start
    and mark the assistant on, even in a browser that cannot listen.
   */
  function ToggleAction(supported: bool, s: State): (r: (State, seq<Effect>))
    requires Valid(s)
    ensures Valid(r.0)
    ensures r.0.assistantOn == !s.assistantOn
    ensures s.assistantOn ==> !r.0.listening && r.1 == (if s.listener.Some? then [StopCapture] else [])
    ensures !s.assistantOn ==> (StartCapture in r.1 <==> supported && !s.listening && !s.engineStarted)
    ensures !s.assistantOn && !supported ==> r.0 == s.(assistantOn := true) && r.1 == [LogError(UNSUPPORTED)]
    ensures r.0.step == s.step && r.0.timer == s.timer && r.0.timeLeft == s.timeLeft && r.0.character == s.character
  {
    if s.assistantOn then
      (s.(assistantOn := false, listening := false), if s.listener.Some? then [StopCapture] else [])
    else
      var (t, effs) := StartListening(supported, s);
      (t.(assistantOn := true), effs)
  }

  /**
    `fetchAIResponse(question)` of the render that created the recogniser:
    without a character selected then, alert and ask nothing, whatever is
    selected now; otherwise classify and dispatch, logging a failure.
   */
  function HeardAction(ins: seq<string>, s: State, l: Listener, q: string, outcome: Classified): (r: (State, seq<Effect>))
    requires Valid(s)
    ensures Valid(r.0)
    ensures StartCapture !in r.1
    ensures 0 <= s.step < |ins| ==> 0 <= r.0.step < |ins|
    ensures |ins| == 0 && -1 <= s.step <= 0 ==> -1 <= r.0.step <= 0
    ensures r.0.engineStarted == s.engineStarted && r.0.listener == s.listener && r.0.character == s.character
    ensures !Present(l.character) ==> r == (s, [Alert(SELECT_CHARACTER)])
    ensures Present(l.character) ==> |r.1| >= 1 && r.1[0] == Classify(q)
    ensures Present(l.character) && outcome.ClassifyFailed? ==> r == (s, [Classify(q), LogError(CLASSIFY_ERROR)])
  {
    if !Present(l.character) then (s, [Alert(SELECT_CHARACTER)])
    else
      match outcome
      case ClassifyFailed => (s, [Classify(q), LogError(CLASSIFY_ERROR)])
      case Classified(data) =>
        var (t, effs) := Dispatch(ins, l.step, s, data);
        (t, [Classify(q)] + effs)
  }

  /**
    One event, in a browser with or without speech recognition. A transcript
    only arrives from a running engine. A new character re-creates
    `playCloudTTS`, which re-runs the step hook on the current step.
   */
  function Step(ins: seq<string>, supported: bool, s: State, e: Event): (r: (State, seq<Effect>))
    requires Valid(s)
    ensures Valid(r.0)
    ensures 0 <= s.step < |ins| ==> 0 <= r.0.step < |ins|
    ensures |ins| == 0 && -1 <= s.step <= 0 ==> -1 <= r.0.step <= 0
    ensures !e.Heard? ==> r.0.step == s.step
    ensures e.Heard? && !s.engineStarted ==> r == (s, [])
    ensures e.CharacterChanged? && e.selected != s.character ==> r == (s.(character := e.selected), StepHook(ins, s.step))
    ensures e.CharacterChanged? && e.selected == s.character ==> r == (s, [])
    ensures StartCapture in r.1 ==> !s.engineStarted && r.0.engineStarted
  {
    match e
    case Heard(q, outcome) =>
      if s.engineStarted then HeardAction(ins, s, s.listener.value, q, outcome) else (s, [])
    case CancelPressed =>
      // the cancel button is only rendered while `timerActive`
      if s.timerActive then (StopAlarmAction(s.(timerActive := false)), []) else (s, [])
    case Toggle => ToggleAction(supported, s)
    case EngineStarted => if s.listener.Some? then (s.(listening := true, assistantOn := true), []) else (s, [])
    case EngineFailed => (s.(listening := false), [])
    case EngineEnded => (s.(listening := false, engineStarted := false), [])
    case CharacterChanged(c) => if c != s.character then (s.(character := c), StepHook(ins, s.step)) else (s, [])
  }

  /** The whole session from mount: the step hook narrates the first instruction, then each event applies. */
  function Run(ins: seq<string>, supported: bool, character: Option<string>, evs: seq<Event>): (r: (State, seq<Effect>))
    ensures Valid(r.0)
    ensures |ins| > 0 ==> 0 <= r.0.step < |ins|
    ensures |ins| == 0 ==> -1 <= r.0.step <= 0
    decreases |evs|
  {
    if evs == [] then (Mount(character), StepHook(ins, 0))
    else
      var (s, e1) := Run(ins, supported, character, evs[..|evs| - 1]);
      var (t, e2) := Step(ins, supported, s, evs[|evs| - 1]);
      (t, e1 + e2)
  }

  /**
    The `TypeError` in `cancel_timer` skips `stopAlarm`, yet the state ends
    exactly where the cancel button leaves it; only the logged error differs.
   */
  lemma CancelThrowLeavesCancelledState(ins: seq<string>, s: State, q: string, reply: Reply)
    requires Valid(s) && s.timerActive && s.engineStarted
    requires Present(s.listener.value.character) && reply.action == Some("cancel_timer")
    ensures var voice := Step(ins, true, s, Heard(q, Classified(Some(reply))));
      var button := Step(ins, true, s, CancelPressed);
      voice.0 == button.0 && voice.1 == [Classify(q), LogError(CLASSIFY_ERROR)] && button.1 == []
  {
  }

  /**
    Turning the assistant off and straight back on before the engine reports
    its end finds the engine still running: `start()` is refused with the
    warning instead of starting a second capture.
   */
  lemma QuickRetoggleWarns(s: State)
    requires Valid(s) && s.assistantOn && s.engineStarted
    ensures var off := Step([], true, s, Toggle);
      var on := Step([], true, off.0, Toggle);
      on.0.assistantOn && on.0.engineStarted && on.1 == [Warn(ALREADY_LISTENING)]
  {
  }

  /**
    `repeat_step` speaks the instruction at the step captured when the
    recogniser was created, whatever the live step is now.
   */
  lemma RepeatReadsTheCapturedStep(ins: seq<string>, s: State, q: string, reply: Reply)
    requires Valid(s) && s.engineStarted && Present(s.listener.value.character)
    requires reply.action == Some("repeat_step")
    ensures var seen := s.listener.value.step;
      Step(ins, true, s, Heard(q, Classified(Some(reply))))
        == (s, [Classify(q), if 0 <= seen < |ins| then Speak(ins[seen]) else SpeakUndefined])
  {
    var seen := s.listener.value.step;
    var spoken := StepSpeech(ins, seen);
    assert spoken == [spoken[0]];
    assert Step(ins, true, s, Heard(q, Classified(Some(reply)))) == (s, [Classify(q)] + spoken);
    assert [Classify(q)] + spoken == [Classify(q), spoken[0]];
  }

  /**
    Two instructions, the recogniser created on the first, the live step
    moved on to the second: "repeat" reads out the first.
   */
  lemma RepeatAfterMoveReadsTheOldStep(q: string, reply: Reply)
    requires reply.action == Some("repeat_step")
    ensures var s := State(1, None, 0, false, true, true, Some(Listener(0, Some("jang"))), true, Some("jang"));
      Step(["a", "b"], true, s, Heard(q, Classified(Some(reply)))).1 == [Classify(q), Speak("a")]
  {
  }

  /**
    The character guard also reads the closure: picking a character after
    the assistant was first switched on still gets the "select a character"
    alert, and nothing is asked.
   */
  lemma CharacterPickedLaterIsNotSeen(ins: seq<string>, s: State, q: string, outcome: Classified)
    requires Valid(s) && s.engineStarted && s.listener.value.character.None? && Present(s.character)
    ensures Step(ins, true, s, Heard(q, outcome)) == (s, [Alert(SELECT_CHARACTER)])
  {
  }

  /** Choosing another character reads the current instruction again, in the new voice. */
  lemma NewCharacterRenarrates(ins: seq<string>, s: State, c: string)
    requires Valid(s) && 0 <= s.step < |ins| && ins[s.step] != "" && s.character != Some(c)
    ensures Step(ins, true, s, CharacterChanged(Some(c))) == (s.(character := Some(c)), [Speak(ins[s.step])])
  {
  }
}
