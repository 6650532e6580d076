/**
  The cooking assistant of front/src/components/CookingAssistant.js: the
  voice-action dispatcher, the countdown with its looping alarm, and the
  step-change narration hook. The step index is the host page's state, shared
  through `setCurrentStep`, so it is part of this state too.
 */
module SrcAssistant {
  import opened Wrappers
  import opened Cooking

  /**
    `timer` is the duration last set (`null` is `None`), `timeLeft` the
    countdown, `alarmPlaying` the React flag and `alarmLoaded` whether
    `alarmAudioRef` holds a clip (it is never cleared once set).
   */
  datatype State = State(
    step: int,
    timer: Option<nat>,
    timeLeft: nat,
    timerActive: bool,
    alarmPlaying: bool,
    alarmLoaded: bool)

  datatype Event =
    | Heard(question: string, outcome: Classified)  // a final transcript and what the classifier made of it
    | Tick                                          // one scheduled second of the countdown

  const Initial := State(0, None, 0, false, false, false)

  /** The alarm flag is only ever raised together with loading the clip. */
  predicate Valid(s: State) {
    s.alarmPlaying ==> s.alarmLoaded
  }

  /** The countdown effect has nothing left to do: a finished timer has its alarm running. */
  predicate Settled(s: State) {
    !(s.timeLeft == 0 && s.timer.Some? && !s.alarmPlaying)
  }

  /** The timer part of the state, for "nothing else changes" statements. */
  function TimerPart(s: State): (Option<nat>, nat, bool, bool, bool) {
    (s.timer, s.timeLeft, s.timerActive, s.alarmPlaying, s.alarmLoaded)
  }

  /** `next_step`: `Math.min(prev + 1, instructions.length - 1)`, narrating a changed step. */
  function NextStepAction(ins: seq<string>, s: State): (r: (State, seq<Effect>))
    ensures r.0.step <= |ins| - 1
    ensures s.step < |ins| - 1 ==> r.0.step == s.step + 1
    ensures s.step >= |ins| - 1 ==> r.0.step == |ins| - 1
    ensures 0 <= s.step < |ins| ==> 0 <= r.0.step < |ins|
    ensures TimerPart(r.0) == TimerPart(s)
    ensures r.1 == StepNarration(ins, s.step, r.0.step)
  {
    var next := s.(step := Min(s.step + 1, |ins| - 1));
    (next, StepNarration(ins, s.step, next.step))
  }

  /** `prev_step`: `Math.max(prev - 1, 0)`, narrating a changed step. */
  function PrevStepAction(ins: seq<string>, s: State): (r: (State, seq<Effect>))
    ensures r.0.step >= 0
    ensures s.step > 0 ==> r.0.step == s.step - 1
    ensures s.step <= 0 ==> r.0.step == 0
    ensures TimerPart(r.0) == TimerPart(s)
    ensures r.1 == StepNarration(ins, s.step, r.0.step)
  {
    var prev := s.(step := Max(s.step - 1, 0));
    (prev, StepNarration(ins, s.step, prev.step))
  }

  /** `repeat_step`: narrate the current instruction, even an empty or missing one; no state change. */
  function RepeatStepAction(ins: seq<string>, s: State): (r: (State, seq<Effect>))
    ensures r.0 == s && |r.1| == 1
    ensures 0 <= s.step < |ins| ==> r.1[0] == Speak(ins[s.step])
    ensures !(0 <= s.step < |ins|) ==> r.1[0] == SpeakUndefined
  {
    (s, StepSpeech(ins, s.step))
  }

  /** `setCookingTimer(seconds)`: no positivity guard in this revision. */
  function SetCookingTimer(s: State, seconds: nat): (r: (State, seq<Effect>))
    ensures r.0.timer == Some(seconds) && r.0.timeLeft == seconds && r.0.timerActive
    ensures r.0.step == s.step && r.0.alarmPlaying == s.alarmPlaying && r.0.alarmLoaded == s.alarmLoaded
    ensures r.1 == [Speak(TimerSetMessage(seconds))]
  {
    (s.(timeLeft := seconds, timer := Some(seconds), timerActive := true), [Speak(TimerSetMessage(seconds))])
  }

  /** The seconds `set_timer` asks for: minutes ("분") are multiplied by 60, any other unit is taken as seconds. */
  function TimerSeconds(time: nat, unit: Option<string>): (r: nat)
    ensures unit == Some(MINUTE_UNIT) ==> r == 60 * time
    ensures unit != Some(MINUTE_UNIT) ==> r == time
  {
    if unit == Some(MINUTE_UNIT) then time * 60 else time
  }

  /** `set_timer`: with a truthy `time`, start the timer; an absent or zero time does nothing. */
  function SetTimerAction(s: State, reply: Reply): (r: (State, seq<Effect>))
    ensures !TimeGiven(reply.time) ==> r == (s, [])
    ensures TimeGiven(reply.time) ==>
      var seconds := TimerSeconds(reply.time.value, reply.unit);
      && r.0.timer == Some(seconds) && r.0.timeLeft == seconds && r.0.timerActive
      && seconds > 0
      && r.0.alarmPlaying == s.alarmPlaying && r.0.step == s.step
      && r.1 == [Speak(TimerSetMessage(seconds))]
  {
    if TimeGiven(reply.time) then SetCookingTimer(s, TimerSeconds(reply.time.value, reply.unit))
    else (s, [])
  }

  /** `stopAlarm()`: silence a loaded alarm clip and clear the timer. */
  function StopAlarmAction(s: State): (r: (State, seq<Effect>))
    requires Valid(s)
    ensures r.0.timer.None? && r.0.timeLeft == 0 && !r.0.timerActive && !r.0.alarmPlaying
    ensures r.0.step == s.step && r.0.alarmLoaded == s.alarmLoaded
    ensures s.alarmPlaying ==> r.1 == [StopAlarm]
  {
    var t := s.(timer := None, timeLeft := 0, timerActive := false);
    if s.alarmLoaded then (t.(alarmPlaying := false), [StopAlarm]) else (t, [])
  }

  /** `cancel_timer`: clear the timer and stop the alarm. */
  function CancelTimerAction(s: State): (r: (State, seq<Effect>))
    requires Valid(s)
    ensures r.0.timer.None? && r.0.timeLeft == 0 && !r.0.timerActive && !r.0.alarmPlaying
    ensures r.0.step == s.step
  {
    StopAlarmAction(s.(timer := None, timeLeft := 0, timerActive := false))
  }

  /** `handleAssistantAction(data)`. */
  function Dispatch(ins: seq<string>, s: State, data: Option<Reply>): (r: (State, seq<Effect>))
    requires Valid(s)
    ensures Valid(r.0)
    ensures data.None? || !Present(data.value.action) ==> r == (s, [])
    ensures IsAction(data, "next_step") ==> r == NextStepAction(ins, s)
    ensures IsAction(data, "prev_step") ==> r == PrevStepAction(ins, s)
    ensures IsAction(data, "set_timer") ==> r == SetTimerAction(s, data.value)
    ensures IsAction(data, "cancel_timer") ==> r == CancelTimerAction(s)
    ensures IsAction(data, "repeat_step") || IsAction(data, "response") ==> r.0 == s
    ensures IsAction(data, "response") ==>
      r.1 == if Present(data.value.answer) then [Speak(data.value.answer.value)] else []
    ensures data.Some? && Present(data.value.action) && !IsKnown(data.value.action.value) ==>
      r == (s, [Warn(data.value.action.value)])
  {
    if data.None? || !Present(data.value.action) then (s, [])
    else
      var reply := data.value;
      match reply.action.value
      case "next_step" => NextStepAction(ins, s)
      case "prev_step" => PrevStepAction(ins, s)
      case "repeat_step" => RepeatStepAction(ins, s)
      case "set_timer" => SetTimerAction(s, reply)
      case "cancel_timer" => CancelTimerAction(s)
      case "response" => if Present(reply.answer) then (s, [Speak(reply.answer.value)]) else (s, [])
      case other => (s, [Warn(other)])
  }

  /** The actions this revision understands. */
  predicate IsKnown(action: string) {
    action in {"next_step", "prev_step", "repeat_step", "set_timer", "cancel_timer", "response"}
  }

  /**
    The countdown effect (deps `timeLeft`, `timer`, `alarmPlaying`) once a render
    has settled: a finished timer whose alarm is not playing starts the alarm.
   */
  function Settle(s: State): (r: (State, seq<Effect>))
    requires Valid(s)
    ensures Valid(r.0) && Settled(r.0)
    ensures Settled(s) ==> r == (s, [])
    ensures !Settled(s) ==> r.0.alarmPlaying && r.1 == [StartAlarm]
    ensures r.0.step == s.step && r.0.timer == s.timer && r.0.timeLeft == s.timeLeft
  {
    if s.timeLeft == 0 && s.timer.Some? && !s.alarmPlaying then
      (s.(alarmPlaying := true, alarmLoaded := true), [StartAlarm])
    else (s, [])
  }

  /** One second of the countdown: `timeLeft` drops by exactly one while positive, never below zero. */
  function TickAction(s: State): (r: State)
    ensures s.timeLeft > 0 ==> r.timeLeft == s.timeLeft - 1
    ensures s.timeLeft == 0 ==> r.timeLeft == 0
    ensures r.timer == s.timer && r.alarmPlaying == s.alarmPlaying && r.step == s.step
  {
    if s.timeLeft > 0 then s.(timeLeft := s.timeLeft - 1) else s
  }

  /** One event followed by the countdown effect. */
  function Step(ins: seq<string>, s: State, e: Event): (r: (State, seq<Effect>))
    requires Valid(s)
    ensures Valid(r.0) && Settled(r.0)
    ensures 0 <= s.step < |ins| ==> 0 <= r.0.step < |ins|
    ensures |ins| == 0 && -1 <= s.step <= 0 ==> -1 <= r.0.step <= 0
    ensures e.Tick? ==> r.0.step == s.step
  {
    var (t, effs) :=
      match e
      case Heard(q, ClassifyFailed) => (s, [Classify(q), LogError(CLASSIFY_ERROR)])
      case Heard(q, Classified(data)) =>
        var (t, out) := Dispatch(ins, s, data);
        (t, [Classify(q)] + out)
      case Tick => (TickAction(s), []);
    var (u, alarm) := Settle(t);
    (u, effs + alarm)
  }

  /** The whole session from mount: the step hook narrates the first instruction, then each event applies. */
  function Run(ins: seq<string>, evs: seq<Event>): (r: (State, seq<Effect>))
    ensures Valid(r.0) && Settled(r.0)
    ensures StepHook(ins, 0) <= r.1
    ensures |ins| > 0 ==> 0 <= r.0.step < |ins|
    ensures |ins| == 0 ==> -1 <= r.0.step <= 0
    decreases |evs|
  {
    if evs == [] then (Initial, StepHook(ins, 0))
    else
      var (s, e1) := Run(ins, evs[..|evs| - 1]);
      var (t, e2) := Step(ins, s, evs[|evs| - 1]);
      assert (e1 + e2)[..|e1|] == e1;
      (t, e1 + e2)
  }

  /** `n` consecutive ticks. */
  function Ticks(ins: seq<string>, s: State, n: nat): (r: State)
    requires Valid(s)
    ensures Valid(r)
    decreases n
  {
    if n == 0 then s else Ticks(ins, Step(ins, s, Tick).0, n - 1)
  }

  /**
    A timer set to `n` seconds, left alone for `n` ticks, reaches zero and
    sounds the alarm, while the step and the set duration stay put.
   */
  lemma {:induction false} TimerRunsOutAfterItsSeconds(ins: seq<string>, s: State, n: nat)
    requires Valid(s) && Settled(s) && s.timeLeft == n && s.timer.Some?
    ensures var r := Ticks(ins, s, n);
      r.timeLeft == 0 && r.alarmPlaying && r.timer == s.timer && r.step == s.step
    decreases n
  {
    if n > 0 {
      var t := Step(ins, s, Tick).0;
      assert t.timeLeft == n - 1 && t.timer == s.timer && t.step == s.step;
      TimerRunsOutAfterItsSeconds(ins, t, n - 1);
    }
  }

  /** Whatever is heard, a sounding alarm keeps sounding until a `cancel_timer` arrives. */
  lemma AlarmLatchesUntilCancel(ins: seq<string>, s: State, e: Event)
    requires Valid(s) && s.alarmPlaying
    requires !(e.Heard? && e.outcome.Classified? && IsAction(e.outcome.data, "cancel_timer"))
    ensures Step(ins, s, e).0.alarmPlaying
  {
  }

  /**
    A heard `cancel_timer` silences a sounding alarm and clears the timer,
    leaving the step where it was: the other half of `AlarmLatchesUntilCancel`.
   */
  lemma HeardCancelSilencesAlarm(ins: seq<string>, s: State, q: string, reply: Reply)
    requires Valid(s) && s.alarmPlaying && reply.action == Some("cancel_timer")
    ensures var r := Step(ins, s, Heard(q, Classified(Some(reply))));
      !r.0.alarmPlaying && r.0.timer.None? && r.0.timeLeft == 0 && !r.0.timerActive && r.0.step == s.step
      && StopAlarm in r.1
  {
  }

  /** `set_timer` twice in a row: the countdown restarts from the second duration. */
  lemma SecondTimerSupersedesFirst(ins: seq<string>, s: State, q1: string, first: Reply, q2: string, second: Reply)
    requires Valid(s)
    requires first.action == Some("set_timer") && second.action == Some("set_timer")
    requires TimeGiven(first.time) && TimeGiven(second.time)
    ensures var t := Step(ins, s, Heard(q1, Classified(Some(first)))).0;
      var u := Step(ins, t, Heard(q2, Classified(Some(second)))).0;
      var seconds := TimerSeconds(second.time.value, second.unit);
      u.timeLeft == seconds && u.timer == Some(seconds) && u.timerActive
  {
  }

  /**
    With an empty instruction list `Math.min(prev + 1, -1)` moves the index
    from 0 to -1, below the first instruction.
   */
  lemma EmptyRecipeNextStepGoesNegative(s: State)
    requires s.step == 0
    ensures NextStepAction([], s).0.step == -1
  {
  }
}
