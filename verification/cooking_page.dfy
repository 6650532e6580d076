/**
  The host page front/src/pages/CookingPage.js: the manual previous/next
  buttons over the step index it shares with the front/src assistant. The
  narration hook of the assistant observes every index change, whichever
  control caused it.
 */
module CookingPage {
  import opened Wrappers
  import opened Cooking
  import SrcAssistant

  const COOKING_COMPLETE := "요리가 완료되었습니다!"
  const NO_PREVIOUS_STEP := "더 이상 이전 단계가 없습니다!"

  datatype Button = NextButton | PreviousButton

  datatype Event = Pressed(button: Button) | Voice(e: SrcAssistant.Event)

  /** `handleNextStep`: advance below the last index, otherwise alert and stay. */
  function NextStep(ins: seq<string>, step: int): (r: (int, seq<Effect>))
    ensures step < |ins| - 1 ==> r == (step + 1, [])
    ensures step >= |ins| - 1 ==> r == (step, [Alert(COOKING_COMPLETE)])
  {
    if step < |ins| - 1 then (step + 1, []) else (step, [Alert(COOKING_COMPLETE)])
  }

  /** `handlePreviousStep`: retreat above 0, otherwise alert and stay. */
  function PreviousStep(step: int): (r: (int, seq<Effect>))
    ensures step > 0 ==> r == (step - 1, [])
    ensures step <= 0 ==> r == (step, [Alert(NO_PREVIOUS_STEP)])
  {
    if step > 0 then (step - 1, []) else (step, [Alert(NO_PREVIOUS_STEP)])
  }

  /** The bound the manual controls keep: `0 <= step <= max(len - 1, 0)`. */
  predicate InBounds(ins: seq<string>, step: int) {
    0 <= step && (step <= |ins| - 1 || step == 0)
  }

  /** The index after pressing the buttons in order, starting from `step`. */
  function PressAll(ins: seq<string>, step: int, presses: seq<Button>): (r: int)
    requires InBounds(ins, step)
    ensures InBounds(ins, r)
    decreases |presses|
  {
    if presses == [] then step
    else
      var before := PressAll(ins, step, presses[..|presses| - 1]);
      match presses[|presses| - 1]
      case NextButton => NextStep(ins, before).0
      case PreviousButton => PreviousStep(before).0
  }

  /**
    One page event: a button press, or a voice event handled by the
    assistant; either way the assistant's step hook narrates a changed index.
   */
  function Step(ins: seq<string>, s: SrcAssistant.State, e: Event): (r: (SrcAssistant.State, seq<Effect>))
    requires SrcAssistant.Valid(s) && SrcAssistant.Settled(s)
    ensures SrcAssistant.Valid(r.0) && SrcAssistant.Settled(r.0)
    ensures e.Pressed? ==> SrcAssistant.TimerPart(r.0) == SrcAssistant.TimerPart(s)
  {
    match e
    case Pressed(NextButton) =>
      var (step, alert) := NextStep(ins, s.step);
      (s.(step := step), alert + StepNarration(ins, s.step, step))
    case Pressed(PreviousButton) =>
      var (step, alert) := PreviousStep(s.step);
      (s.(step := step), alert + StepNarration(ins, s.step, step))
    case Voice(v) => SrcAssistant.Step(ins, s, v)
  }

  /** The page opens on the first instruction: `useState(0)`. */
  function Open(ins: seq<string>): (r: (SrcAssistant.State, seq<Effect>))
    ensures r.0.step == 0 && r.0.timer.None? && r.0.timeLeft == 0 && !r.0.alarmPlaying
    ensures |ins| > 0 && ins[0] != "" ==> r.1 == [Speak(ins[0])]
  {
    (SrcAssistant.Initial, StepHook(ins, 0))
  }

  /**
    The next button and the assistant's `next_step` move the shared index the
    same way: one forward below the last instruction, nowhere at the last one,
    with the same narration of a changed step.
   */
  lemma ManualAndVoiceNextAgree(ins: seq<string>, s: SrcAssistant.State, q: string, reply: Reply)
    requires SrcAssistant.Valid(s) && SrcAssistant.Settled(s)
    requires 0 <= s.step < |ins|
    requires reply.action == Some("next_step")
    ensures var manual := Step(ins, s, Pressed(NextButton));
      var voice := Step(ins, s, Voice(SrcAssistant.Heard(q, Classified(Some(reply)))));
      && manual.0 == voice.0
      && (s.step < |ins| - 1 ==> manual.0.step == s.step + 1 && manual.1 == voice.1[1..])
      && (s.step == |ins| - 1 ==> manual.0 == s)
  {
  }

  /** Likewise for the previous button and `prev_step` on a non-negative index. */
  lemma ManualAndVoicePreviousAgree(ins: seq<string>, s: SrcAssistant.State, q: string, reply: Reply)
    requires SrcAssistant.Valid(s) && SrcAssistant.Settled(s)
    requires 0 <= s.step
    requires reply.action == Some("prev_step")
    ensures Step(ins, s, Pressed(PreviousButton)).0
         == Step(ins, s, Voice(SrcAssistant.Heard(q, Classified(Some(reply))))).0
  {
  }
}
