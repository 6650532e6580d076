/**
  The chat panel `ChatUI.jsx` in its two revisions. Both keep a message log
  that only ever grows. front/front answers each message with a delayed
  echo. front/src awaits a remote reply; as written the call it makes is
  never imported, so every reply is the error line.
 */
module Chat {
  import opened Wrappers
  import JsText

  datatype Message = Message(isUser: bool, text: string)

  /** The log, the input box, and (front/front) the texts whose echo is still scheduled, oldest first. */
  datatype Panel = Panel(log: seq<Message>, input: string, pending: seq<string>)

  const GREETING := Message(false, "안녕하세유~ 빽AI예유. 궁금한게 뭐유?")
  const ECHO_PREFIX := "🤖 "
  const ERROR_REPLY := "⚠️ 오류가 발생했어요. 다시 시도해 주세요."
  const NO_ANSWER := "응답 없음"

  const Initial := Panel([GREETING], "", [])

  /** The input box changes; nothing else does. */
  function Type(c: Panel, text: string): (r: Panel)
    ensures r.input == text && r.log == c.log && r.pending == c.pending
  {
    c.(input := text)
  }

  function Echo(t: string): string {
    ECHO_PREFIX + t
  }

  // ---------------------------------------------------------------------
  // front/front: the reply is an echo scheduled 500 ms after the send.
  // ---------------------------------------------------------------------

  /**
    `handleSend()` in front/front: a blank input is ignored; otherwise the
    trimmed text is appended as the user's message, the input cleared and
    its echo scheduled.
   */
  function EchoSend(c: Panel): (r: Panel)
    ensures JsText.IsBlank(c.input) ==> r == c
    ensures !JsText.IsBlank(c.input) ==>
      r == Panel(c.log + [Message(true, JsText.Trim(c.input))], "", c.pending + [JsText.Trim(c.input)])
  {
    if JsText.IsBlank(c.input) then c
    else
      var t := JsText.Trim(c.input);
      Panel(c.log + [Message(true, t)], "", c.pending + [t])
  }

  /** The oldest scheduled timeout fires: its echo is appended to the log. */
  function EchoArrives(c: Panel): (r: Panel)
    ensures c.pending == [] ==> r == c
    ensures c.pending != [] ==>
      r.log == c.log + [Message(false, Echo(c.pending[0]))] && r.pending == c.pending[1..] && r.input == c.input
  {
    if c.pending == [] then c
    else c.(log := c.log + [Message(false, Echo(c.pending[0]))], pending := c.pending[1..])
  }

  datatype EchoEvent = Typed(text: string) | Sent | Fired

  function EchoStep(c: Panel, e: EchoEvent): (r: Panel)
    ensures |c.log| <= |r.log| && r.log[..|c.log|] == c.log
  {
    match e
    case Typed(text) => Type(c, text)
    case Sent => EchoSend(c)
    case Fired => EchoArrives(c)
  }

  function EchoRun(c: Panel, evs: seq<EchoEvent>): (r: Panel)
    decreases |evs|
  {
    if evs == [] then c else EchoStep(EchoRun(c, evs[..|evs| - 1]), evs[|evs| - 1])
  }

  /** The log is append-only: every earlier entry stays where it was. */
  lemma {:induction false} EchoLogOnlyGrows(c: Panel, evs: seq<EchoEvent>)
    ensures |c.log| <= |EchoRun(c, evs).log| && EchoRun(c, evs).log[..|c.log|] == c.log
    decreases |evs|
  {
    if evs != [] {
      var mid := EchoRun(c, evs[..|evs| - 1]);
      EchoLogOnlyGrows(c, evs[..|evs| - 1]);
      var r := EchoStep(mid, evs[|evs| - 1]);
      assert r.log[..|c.log|] == r.log[..|mid.log|][..|c.log|];
    }
  }

  /** The texts of the user's messages, in order. */
  function UserTexts(log: seq<Message>): (r: seq<string>)
    ensures |r| <= |log|
    decreases |log|
  {
    if log == [] then []
    else
      var last := log[|log| - 1];
      UserTexts(log[..|log| - 1]) + (if last.isUser then [last.text] else [])
  }

  /** The texts of the assistant's messages, in order. */
  function BotTexts(log: seq<Message>): (r: seq<string>)
    ensures |r| <= |log|
    decreases |log|
  {
    if log == [] then []
    else
      var last := log[|log| - 1];
      BotTexts(log[..|log| - 1]) + (if last.isUser then [] else [last.text])
  }

  /** The echo of each text, in order. */
  function EchoAll(ts: seq<string>): (r: seq<string>)
    ensures |r| == |ts|
    decreases |ts|
  {
    if ts == [] then [] else EchoAll(ts[..|ts| - 1]) + [Echo(ts[|ts| - 1])]
  }

  /**
    The conversation so far is the greeting, then the echoes of the first
    user messages in order; the user messages not yet answered are exactly
    the scheduled ones.
   */
  predicate EchoBalanced(c: Panel) {
    var users := UserTexts(c.log);
    && |c.pending| <= |users|
    && users[|users| - |c.pending|..] == c.pending
    && BotTexts(c.log) == [GREETING.text] + EchoAll(users[..|users| - |c.pending|])
  }

  lemma EchoBalancedInitially()
    ensures EchoBalanced(Initial)
  {
    assert Initial.log[..0] == [];
  }

  /** One more message adds its text to the user's or to the assistant's texts. */
  lemma TextsSnoc(log: seq<Message>, m: Message)
    ensures UserTexts(log + [m]) == UserTexts(log) + (if m.isUser then [m.text] else [])
    ensures BotTexts(log + [m]) == BotTexts(log) + (if m.isUser then [] else [m.text])
  {
    assert (log + [m])[..|log|] == log;
  }

  /** Appending a user message and scheduling its echo keeps the balance. */
  lemma UserMessageKeepsBalance(c: Panel, t: string)
    requires EchoBalanced(c)
    ensures EchoBalanced(Panel(c.log + [Message(true, t)], "", c.pending + [t]))
  {
    var users := UserTexts(c.log);
    var k := |users| - |c.pending|;
    TextsSnoc(c.log, Message(true, t));
    assert (users + [t])[..k] == users[..k];
    assert (users + [t])[k..] == users[k..] + [t];
  }

  lemma EchoSendKeepsBalance(c: Panel)
    requires EchoBalanced(c)
    ensures EchoBalanced(EchoSend(c))
  {
    if !JsText.IsBlank(c.input) {
      UserMessageKeepsBalance(c, JsText.Trim(c.input));
    }
  }

  /** The echo of the oldest scheduled text answers the first unanswered user message. */
  lemma EchoArrivesKeepsBalance(c: Panel)
    requires EchoBalanced(c)
    ensures EchoBalanced(EchoArrives(c))
  {
    if c.pending != [] {
      var r := EchoArrives(c);
      var users := UserTexts(c.log);
      var k := |users| - |c.pending|;
      var first := c.pending[0];
      TextsSnoc(c.log, Message(false, Echo(first)));
      assert UserTexts(r.log) == users;
      assert |users| - |r.pending| == k + 1;
      PendingHead(users, c.pending);
      EchoAllSnoc(users, k);
      assert BotTexts(r.log) == [GREETING.text] + EchoAll(users[..k + 1]);
    }
  }

  /** Echoing one more text of a prefix. */
  lemma EchoAllSnoc(ts: seq<string>, k: nat)
    requires k < |ts|
    ensures EchoAll(ts[..k + 1]) == EchoAll(ts[..k]) + [Echo(ts[k])]
  {
    assert ts[..k + 1][..k] == ts[..k];
  }

  /** The first pending text is the oldest unanswered one, and the rest stay pending. */
  lemma PendingHead(users: seq<string>, pending: seq<string>)
    requires pending != [] && |pending| <= |users| && users[|users| - |pending|..] == pending
    ensures users[|users| - |pending|] == pending[0]
    ensures users[|users| - |pending| + 1..] == pending[1..]
  {
    var k := |users| - |pending|;
    assert users[k..][0] == users[k];
    assert users[k + 1..] == users[k..][1..];
  }

  /** From the greeting alone, every run keeps the conversation balanced. */
  lemma {:induction false} EchoRunBalanced(evs: seq<EchoEvent>)
    ensures EchoBalanced(EchoRun(Initial, evs))
    decreases |evs|
  {
    if evs == [] {
      EchoBalancedInitially();
    } else {
      var mid := EchoRun(Initial, evs[..|evs| - 1]);
      EchoRunBalanced(evs[..|evs| - 1]);
      match evs[|evs| - 1]
      case Typed(_) =>
      case Sent => EchoSendKeepsBalance(mid);
      case Fired => EchoArrivesKeepsBalance(mid);
    }
  }

  /** Once every timeout has fired, each user message has its echo, in order. */
  lemma EchoEverythingAnswered(evs: seq<EchoEvent>)
    requires EchoRun(Initial, evs).pending == []
    ensures var log := EchoRun(Initial, evs).log;
      BotTexts(log) == [GREETING.text] + EchoAll(UserTexts(log))
  {
    EchoRunBalanced(evs);
    var users := UserTexts(EchoRun(Initial, evs).log);
    assert users[..|users|] == users;
  }

  // ---------------------------------------------------------------------
  // front/src: the reply is awaited from a remote call.
  // ---------------------------------------------------------------------

  /** How the awaited call ended: it threw, or it resolved with `response.data?.message` (`None`: absent). */
  datatype Remote = Threw | Resolved(message: Option<string>)

  /** The reply line for a call's outcome: the message when truthy, otherwise the fallback. */
  function ReplyText(outcome: Remote): (r: string)
    ensures outcome.Threw? ==> r == ERROR_REPLY
    ensures outcome.Resolved? && outcome.message.Some? && outcome.message.value != "" ==> r == outcome.message.value
    ensures outcome.Resolved? && (outcome.message.None? || outcome.message.value == "") ==> r == NO_ANSWER
  {
    match outcome
    case Threw => ERROR_REPLY
    case Resolved(Some(m)) => if m != "" then m else NO_ANSWER
    case Resolved(None) => NO_ANSWER
  }

  /**
    `handleSend()` in front/src with the call's outcome: a blank input is
    ignored; otherwise the trimmed message and then the reply line are
    appended, and the input cleared. The reply is taken to arrive before the
    next send.
   */
  function RemoteSend(c: Panel, outcome: Remote): (r: Panel)
    ensures JsText.IsBlank(c.input) <==> r.log == c.log
    ensures r.log == c.log ==> r == c
    ensures r.log != c.log ==> |r.log| == |c.log| + 2 && r.input == "" && r.pending == c.pending
    ensures r.log != c.log ==> r.log[..|c.log| + 1] == c.log + [Message(true, JsText.Trim(c.input))]
    ensures r.log != c.log ==> r.log[|c.log| + 1] == Message(false, ReplyText(outcome))
  {
    if JsText.IsBlank(c.input) then c
    else c.(log := c.log + [Message(true, JsText.Trim(c.input)), Message(false, ReplyText(outcome))], input := "")
  }

  /** The call as written: `sendTestCommand` is never imported, so it throws a `ReferenceError`. */
  function SendAsWritten(c: Panel): (r: Panel)
    ensures JsText.IsBlank(c.input) <==> r.log == c.log
    ensures r.log != c.log ==> |r.log| == |c.log| + 2 && r.log[|c.log| + 1] == Message(false, ERROR_REPLY)
  {
    RemoteSend(c, Threw)
  }

  datatype RemoteEvent = Entered(text: string) | Submitted(outcome: Remote)

  function RemoteStep(c: Panel, e: RemoteEvent): (r: Panel)
    ensures r.log == c.log || (e.Submitted? && r.log == c.log + [Message(true, JsText.Trim(c.input)), Message(false, ReplyText(e.outcome))])
  {
    match e
    case Entered(text) => Type(c, text)
    case Submitted(outcome) => RemoteSend(c, outcome)
  }

  function RemoteRun(c: Panel, evs: seq<RemoteEvent>): (r: Panel)
    ensures |c.log| <= |r.log| <= |c.log| + 2 * |evs|
    decreases |evs|
  {
    if evs == [] then c
    else RemoteStep(RemoteRun(c, evs[..|evs| - 1]), evs[|evs| - 1])
  }

  /** The log is append-only here too: every earlier entry stays where it was. */
  lemma {:induction false} RemoteLogOnlyGrows(c: Panel, evs: seq<RemoteEvent>)
    ensures RemoteRun(c, evs).log[..|c.log|] == c.log
    decreases |evs|
  {
    if evs != [] {
      var mid := RemoteRun(c, evs[..|evs| - 1]);
      RemoteLogOnlyGrows(c, evs[..|evs| - 1]);
      var r := RemoteStep(mid, evs[|evs| - 1]);
      assert r.log[..|c.log|] == r.log[..|mid.log|][..|c.log|];
    }
  }

  /** After the greeting the log alternates: a user message at each odd index, its reply at the even index after it. */
  predicate Alternates(log: seq<Message>) {
    && |log| % 2 == 1
    && log[0] == GREETING
    && forall i :: 0 < i < |log| ==> (log[i].isUser <==> i % 2 == 1)
  }

  lemma AppendPairAlternates(log: seq<Message>, u: Message, b: Message)
    requires Alternates(log) && u.isUser && !b.isUser
    ensures Alternates(log + [u, b])
  {
    var log' := log + [u, b];
    forall i | 0 < i < |log'|
      ensures log'[i].isUser <==> i % 2 == 1
    {
      if i < |log| {
        assert log'[i] == log[i];
      }
    }
  }

  lemma {:induction false} RemoteRunAlternates(evs: seq<RemoteEvent>)
    ensures Alternates(RemoteRun(Initial, evs).log)
    decreases |evs|
  {
    if evs != [] {
      var mid := RemoteRun(Initial, evs[..|evs| - 1]);
      RemoteRunAlternates(evs[..|evs| - 1]);
      var e := evs[|evs| - 1];
      if RemoteStep(mid, e).log != mid.log {
        AppendPairAlternates(mid.log, Message(true, JsText.Trim(mid.input)), Message(false, ReplyText(e.outcome)));
      }
    }
  }

  /** Every send's call throws, as it does with the code as written. */
  predicate AllThrow(evs: seq<RemoteEvent>) {
    forall i :: 0 <= i < |evs| && evs[i].Submitted? ==> evs[i].outcome.Threw?
  }

  /** Every reply after the greeting is the error line. */
  predicate OnlyErrors(log: seq<Message>) {
    forall i :: 0 < i < |log| && !log[i].isUser ==> log[i].text == ERROR_REPLY
  }

  lemma OnlyErrorsAppend(log: seq<Message>, u: Message)
    requires OnlyErrors(log) && u.isUser
    ensures OnlyErrors(log + [u, Message(false, ERROR_REPLY)])
  {
    var log' := log + [u, Message(false, ERROR_REPLY)];
    forall i | 0 < i < |log'| && !log'[i].isUser
      ensures log'[i].text == ERROR_REPLY
    {
      if i < |log| {
        assert log'[i] == log[i];
      }
    }
  }

  lemma OnlyErrorsStep(c: Panel, e: RemoteEvent)
    requires OnlyErrors(c.log) && (e.Submitted? ==> e.outcome.Threw?)
    ensures OnlyErrors(RemoteStep(c, e).log)
  {
    if RemoteStep(c, e).log != c.log {
      OnlyErrorsAppend(c.log, Message(true, JsText.Trim(c.input)));
    }
  }

  /** As written, every reply the log ever shows after the greeting is the error line. */
  lemma {:induction false} AsWrittenEveryReplyIsTheError(evs: seq<RemoteEvent>)
    requires AllThrow(evs)
    ensures OnlyErrors(RemoteRun(Initial, evs).log)
    decreases |evs|
  {
    if evs != [] {
      var front := evs[..|evs| - 1];
      assert AllThrow(front) by {
        forall i | 0 <= i < |front|
          ensures front[i].Submitted? ==> front[i].outcome.Threw?
        {
          assert front[i] == evs[i];
        }
      }
      AsWrittenEveryReplyIsTheError(front);
      OnlyErrorsStep(RemoteRun(Initial, front), evs[|evs| - 1]);
    }
  }
}
