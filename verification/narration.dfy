/**
  The narration slot behind `playCloudTTS`: at most one audible clip and one
  abort controller. Every `speak` pauses the current clip, aborts the previous
  request and issues a new one; the browser delivers an aborted request's
  completion as an `AbortError`, which the code swallows. The three revisions
  differ only in the requested format, the blob MIME type and what happens on
  unmount, captured by `Config`.
 */
module Narration {
  import opened Wrappers

  /** Per-revision wiring of the speech backend. */
  datatype Config = Config(format: Option<string>, mime: string, unmountAborts: bool)

  /** front/src: `fetchTTS` default format "mp3", blob "audio/mp3"; unmount only pauses the clip. */
  const SrcConfig := Config(Some("mp3"), "audio/mp3", false)
  /** front/front: format "wav", blob "audio/wav"; unmount aborts and pauses. */
  const CharacterConfig := Config(Some("wav"), "audio/wav", true)
  /** checkpoint.js: body `{ text }` without a format, blob "audio/mp3"; unmount aborts and pauses. */
  const CheckpointConfig := Config(None, "audio/mp3", true)

  /** How a live (not aborted) request settles. */
  datatype Outcome = AudioReady | NoAudio | Failed

  /**
    `clip` is the request whose audio is audible, `controller` the request the
    abort-controller ref points to (never cleared once set), `pending` whether
    that request is still unsettled and un-aborted, `issued` the number of
    requests issued so far (request ids are 0, 1, 2, ...).
   */
  datatype Slot = Slot(clip: Option<nat>, controller: Option<nat>, pending: bool, issued: nat)

  const Idle := Slot(None, None, false, 0)

  datatype Event = Speak(text: string) | Resolve(id: nat, outcome: Outcome) | Unmount

  datatype Effect =
    | StopClip(id: nat)
    | Abort(id: nat)
    | Request(id: nat, text: string, format: Option<string>)
    | Play(id: nat, mime: string)
    | LogError

  predicate Valid(s: Slot) {
    && (s.clip.Some? ==> s.controller == s.clip && !s.pending)
    && (s.controller.Some? ==> s.controller.value + 1 == s.issued)
    && (s.controller.None? ==> s.clip.None? && !s.pending && s.issued == 0)
  }

  function StopCurrent(s: Slot): seq<Effect> {
    if s.clip.Some? then [StopClip(s.clip.value)] else []
  }

  function AbortCurrent(s: Slot): seq<Effect> {
    if s.controller.Some? then [Abort(s.controller.value)] else []
  }

  /** `speak(text)`: retire the clip and the previous request, then issue a fresh one. */
  function SpeakStep(cfg: Config, s: Slot, text: string): (r: (Slot, seq<Effect>))
    requires Valid(s)
    ensures Valid(r.0)
    ensures r.0.clip.None? && r.0.pending && r.0.controller == Some(s.issued)
    ensures |r.1| >= 1 && r.1[|r.1| - 1] == Request(s.issued, text, cfg.format)
    ensures s.clip.Some? ==> r.1[0] == StopClip(s.clip.value)
    ensures s.controller.Some? ==> Abort(s.controller.value) in r.1
    ensures forall e :: e in r.1 ==> !e.Play? && !e.LogError?
  {
    (Slot(None, Some(s.issued), true, s.issued + 1),
     StopCurrent(s) + AbortCurrent(s) + [Request(s.issued, text, cfg.format)])
  }

  /**
    Completion of request `id`. Only the live request can take effect; any
    other id was aborted by a later `speak` (or by unmount) and its
    `AbortError` is swallowed: no state change and nothing logged.
   */
  function ResolveStep(cfg: Config, s: Slot, id: nat, o: Outcome): (r: (Slot, seq<Effect>))
    requires Valid(s)
    ensures Valid(r.0)
    ensures !(s.pending && s.controller == Some(id)) ==> r == (s, [])
    ensures s.pending && s.controller == Some(id) ==>
      && !r.0.pending
      && (r.0.clip == Some(id) <==> o == AudioReady)
      && (LogError in r.1 <==> o == Failed)
    ensures forall e :: e in r.1 ==> e == Play(id, cfg.mime) || e == LogError
    ensures Play(id, cfg.mime) in r.1 ==> s.clip.None?
  {
    if s.pending && s.controller == Some(id) then
      match o
      case AudioReady => (s.(clip := Some(id), pending := false), [Play(id, cfg.mime)])
      case NoAudio => (s.(pending := false), [])
      case Failed => (s.(pending := false), [LogError])
    else (s, [])
  }

  /** The unmount cleanup of the revision. */
  function UnmountStep(cfg: Config, s: Slot): (r: (Slot, seq<Effect>))
    requires Valid(s)
    ensures Valid(r.0)
    ensures r.0.clip.None?
    ensures cfg.unmountAborts ==> !r.0.pending
    ensures !cfg.unmountAborts ==> r.0.pending == s.pending
  {
    if cfg.unmountAborts then (s.(clip := None, pending := false), AbortCurrent(s) + StopCurrent(s))
    else (s.(clip := None), StopCurrent(s))
  }

  function Step(cfg: Config, s: Slot, e: Event): (r: (Slot, seq<Effect>))
    requires Valid(s)
    ensures Valid(r.0)
  {
    match e
    case Speak(text) => SpeakStep(cfg, s, text)
    case Resolve(id, o) => ResolveStep(cfg, s, id, o)
    case Unmount => UnmountStep(cfg, s)
  }

  /** Apply events in order from `s`, collecting every effect. */
  function Run(cfg: Config, s: Slot, evs: seq<Event>): (r: (Slot, seq<Effect>))
    requires Valid(s)
    ensures Valid(r.0)
    decreases |evs|
  {
    if evs == [] then (s, [])
    else
      var (s1, e1) := Run(cfg, s, evs[..|evs| - 1]);
      var (s2, e2) := Step(cfg, s1, evs[|evs| - 1]);
      (s2, e1 + e2)
  }

  /** The last `Request` effect in a trace, if any. */
  function LastRequest(effs: seq<Effect>): (r: Option<Effect>)
    ensures r.Some? ==> r.value.Request? && r.value in effs
    decreases |effs|
  {
    if effs == [] then None
    else if effs[|effs| - 1].Request? then Some(effs[|effs| - 1])
    else LastRequest(effs[..|effs| - 1])
  }

  /** The text of the last `speak` in an event sequence, if any. */
  function LastSpoken(evs: seq<Event>): Option<string>
    decreases |evs|
  {
    if evs == [] then None
    else if evs[|evs| - 1].Speak? then Some(evs[|evs| - 1].text)
    else LastSpoken(evs[..|evs| - 1])
  }

  lemma {:induction false} LastRequestAppend(a: seq<Effect>, b: seq<Effect>)
    ensures LastRequest(a + b) == if LastRequest(b).Some? then LastRequest(b) else LastRequest(a)
    decreases |b|
  {
    if b != [] {
      assert (a + b)[..|a + b| - 1] == a + b[..|b| - 1];
      LastRequestAppend(a, b[..|b| - 1]);
    } else {
      assert a + b == a;
    }
  }

  /** The controller belongs to the last request in `effs`, which carries the text of the last `speak` in `evs`. */
  predicate Tracks(s: Slot, effs: seq<Effect>, evs: seq<Event>) {
    && (s.controller.Some? <==> LastRequest(effs).Some?)
    && (s.controller.Some? ==> LastRequest(effs).value.id == s.controller.value)
    && (LastRequest(effs).Some? ==> LastSpoken(evs) == Some(LastRequest(effs).value.text))
    && (LastRequest(effs).None? ==> LastSpoken(evs).None?)
  }

  /** A `speak` makes its own request the last one. */
  lemma TracksSpeak(cfg: Config, s: Slot, effs: seq<Effect>, evs: seq<Event>, text: string)
    requires Valid(s)
    ensures Tracks(SpeakStep(cfg, s, text).0, effs + SpeakStep(cfg, s, text).1, evs + [Speak(text)])
  {
    var (s2, e2) := SpeakStep(cfg, s, text);
    LastRequestAppend(effs, e2);
    assert LastRequest(e2) == Some(Request(s.issued, text, cfg.format));
    assert (evs + [Speak(text)])[..|evs|] == evs;
  }

  /** Any other event issues no request and leaves the controller alone. */
  lemma TracksQuiet(cfg: Config, s: Slot, effs: seq<Effect>, evs: seq<Event>, e: Event)
    requires Valid(s) && Tracks(s, effs, evs) && !e.Speak?
    ensures Tracks(Step(cfg, s, e).0, effs + Step(cfg, s, e).1, evs + [e])
  {
    var (s2, e2) := Step(cfg, s, e);
    assert forall x :: x in e2 ==> !x.Request?;
    assert LastRequest(e2).None?;
    LastRequestAppend(effs, e2);
    assert s2.controller == s.controller;
    assert (evs + [e])[..|evs|] == evs;
  }

  lemma TracksStep(cfg: Config, s: Slot, effs: seq<Effect>, evs: seq<Event>, e: Event)
    requires Valid(s) && Tracks(s, effs, evs)
    ensures Tracks(Step(cfg, s, e).0, effs + Step(cfg, s, e).1, evs + [e])
  {
    if e.Speak? {
      TracksSpeak(cfg, s, effs, evs, e.text);
    } else {
      TracksQuiet(cfg, s, effs, evs, e);
    }
  }

  /**
    Supersession: from an idle slot, after any sequence of events, the abort
    controller belongs to the request of the most recent `speak`, which carries
    that call's text.
   */
  lemma {:induction false} RunTracksLastSpeak(cfg: Config, evs: seq<Event>)
    ensures Tracks(Run(cfg, Idle, evs).0, Run(cfg, Idle, evs).1, evs)
    decreases |evs|
  {
    if evs != [] {
      var init := evs[..|evs| - 1];
      RunTracksLastSpeak(cfg, init);
      TracksStep(cfg, Run(cfg, Idle, init).0, Run(cfg, Idle, init).1, init, evs[|evs| - 1]);
      assert init + [evs[|evs| - 1]] == evs;
    }
  }

  /** Only one clip is ever audible, and it is the one requested by the last `speak`. */
  lemma AudibleClipIsLastSpoken(cfg: Config, evs: seq<Event>)
    ensures var (s, effs) := Run(cfg, Idle, evs);
      s.clip.Some? ==>
        && LastRequest(effs).Some?
        && LastRequest(effs).value.id == s.clip.value
        && LastSpoken(evs) == Some(LastRequest(effs).value.text)
  {
    RunTracksLastSpeak(cfg, evs);
  }

  /** With an aborting unmount, nothing that settles afterwards can start audio. */
  lemma AbortingUnmountIsQuiet(cfg: Config, s: Slot, id: nat, o: Outcome)
    requires Valid(s) && cfg.unmountAborts
    ensures var (t, _) := UnmountStep(cfg, s);
      ResolveStep(cfg, t, id, o) == (t, []) && t.clip.None?
  {
  }

  /**
    front/src pauses the clip on unmount but leaves its request running: the
    unmount aborts nothing, and a response that arrives after the view is
    gone still starts playback.
   */
  lemma SrcUnmountLetsLateAudioPlay(text: string)
    ensures var (spoken, e1) := SpeakStep(SrcConfig, Idle, text);
      var (unmounted, e2) := UnmountStep(SrcConfig, spoken);
      var (late, e3) := ResolveStep(SrcConfig, unmounted, 0, AudioReady);
      && e1 == [Request(0, text, Some("mp3"))]
      && e2 == []
      && e3 == [Play(0, "audio/mp3")] && late.clip == Some(0)
  {
    assert StopCurrent(Idle) + AbortCurrent(Idle) == [];
  }
}
