/**
  The one-shot test call: it greets the callee, listens (the callee may talk
  over the greeting), and after the callee stops talking, or after a silent
  wait, says back what it heard once and hangs up.

  Its one timer variable is modelled as the set of timers still pending plus
  the one the variable refers to: the greeting's callback stores a new timer
  without clearing the old one, so two may be pending at once, and `respond`
  (guarded by the finished flag) runs on whichever fires first.
 */
module TestCall {
  import opened Text
  import D = Dialog

  datatype Event = Connected | Heard(text: string) | PlaybackFinished | TimerFired(id: nat)

  /**
    `greetingListener` is the greeting's one-shot playback listener,
    `hangupListener` the permanent one `respond` adds; `pending` are the timers
    not yet fired or cleared and `current` the one the timer variable holds.
   */
  datatype State = State(
    connected: bool,
    asrAttached: bool,
    recognized: string,
    finished: bool,
    speaking: bool,
    greetingListener: bool,
    hangupListener: bool,
    pending: set<nat>,
    current: D.Option<nat>,
    nextId: nat)

  datatype Out = Out(state: State, actions: seq<D.Action>)

  const Init: State := State(false, false, "", false, false, false, false, {}, D.None, 0)

  const Greeting: string := "Здравствуйте! Как ваши дела сегодня?"
  const EchoPrefix: string := "Вы сказали: "
  const EchoSuffix: string := ". Отлично! Спасибо за разговор. До свидания!"
  const NoAnswer: string := "Жаль что не ответили. До свидания!"

  /** The last words of the call: what was heard, echoed, or the no-answer farewell. */
  function FinalText(heard: string): (m: string)
  {
    if heard != "" then EchoPrefix + heard + EchoSuffix else NoAnswer
  }

  /** `setTimeout`: a new pending timer, stored in the timer variable. */
  function Arm(s: State): (s1: State)
  {
    s.(pending := s.pending + {s.nextId}, current := D.Some(s.nextId), nextId := s.nextId + 1)
  }

  /** `clearTimeout` of the timer variable. */
  function ClearCurrent(s: State): (s1: State)
  {
    if s.current.Some? then s.(pending := s.pending - {s.current.value}) else s
  }

  /** `onConnected`: attach the recogniser and say the greeting with a one-shot listener. */
  function OnConnected(s: State): (o: Out)
  {
    if s.connected then Out(s, [])
    else Out(s.(connected := true, asrAttached := true, speaking := true, greetingListener := true), [D.Speak(Greeting)])
  }

  /** `onSpeechRecognized`: the last non-blank result wins, stops the bot if it speaks, and restarts the short timer. */
  function OnHeard(s: State, t: string): (o: Out)
  {
    if !s.connected || s.finished || AllSpace(t) then Out(s, [])
    else
      var s1 := ClearCurrent(s.(recognized := t, speaking := false));
      Out(Arm(s1), if s.speaking then [D.StopPlayback] else [])
  }

  /** `respond`: once only; detach the recogniser, say the final text, and hang up after any later playback end. */
  function Respond(s: State): (o: Out)
  {
    if s.finished then Out(s, [])
    else
      var detach := if s.asrAttached then [D.DetachAsr] else [];
      var s1 := ClearCurrent(s).(finished := true, asrAttached := false, hangupListener := true);
      Out(s1, detach + [D.Speak(FinalText(s.recognized))])
  }

  /**
    The end of a playback runs the listeners in the order they were added: the
    greeting's removes itself, clears the speaking flag and, unless the call is
    finished, starts the long timer; the one `respond` added hangs up.
   */
  function OnPlaybackFinished(s: State): (o: Out)
  {
    var s1 := if s.greetingListener then s.(greetingListener := false, speaking := false) else s;
    var s2 := if s.greetingListener && !s.finished then Arm(s1) else s1;
    Out(s2, if s.hangupListener then [D.Hangup] else [])
  }

  /** A pending timer fires and runs `respond`; one that was cleared never fires. */
  function OnTimer(s: State, id: nat): (o: Out)
  {
    if id !in s.pending then Out(s, [])
    else Respond(s.(pending := s.pending - {id}))
  }

  function Step(s: State, e: Event): (o: Out)
  {
    match e
    case Connected => OnConnected(s)
    case Heard(t) => OnHeard(s, t)
    case PlaybackFinished => OnPlaybackFinished(s)
    case TimerFired(id) => OnTimer(s, id)
  }

  function Run(s: State, es: seq<Event>): (o: Out)
    decreases |es|
  {
    if |es| == 0 then Out(s, [])
    else
      var o1 := Step(s, es[0]);
      var o2 := Run(o1.state, es[1..]);
      Out(o2.state, o1.actions + o2.actions)
  }

  // ---------------------------------------------------------------------
  // Properties
  // ---------------------------------------------------------------------

  /** The echo gives back exactly what was heard: different words give different final texts. */
  lemma FinalTextEcho(heard: string)
    ensures heard != "" ==>
      var m := FinalText(heard);
      m[..|EchoPrefix|] == EchoPrefix && m[|EchoPrefix|..|EchoPrefix| + |heard|] == heard
      && m[|EchoPrefix| + |heard|..] == EchoSuffix
    ensures heard == "" ==> FinalText(heard) == NoAnswer
  {
  }

  lemma FinalTextInjective(a: string, b: string)
    requires FinalText(a) == FinalText(b)
    ensures a == b
  {
    if a != "" && b != "" {
      FinalTextEcho(a);
      FinalTextEcho(b);
      assert |a| == |b|;
    }
  }

  /** Blank results, and any result once the call is finished, are ignored. */
  lemma BlankOrLateIgnored(s: State, t: string)
    requires s.finished || AllSpace(t)
    ensures Step(s, Heard(t)) == Out(s, [])
  {
  }

  /** The hang-up listener is added only by `respond`, and the recogniser is attached only while the call runs. */
  predicate Inv(s: State) {
    (s.hangupListener <==> s.finished)
    && (s.asrAttached ==> s.connected && !s.finished)
    && (!s.connected ==> !s.finished && !s.greetingListener && s.pending == {} && s.current == D.None)
    && (forall id <- s.pending :: id < s.nextId)
    && (s.current.Some? ==> s.current.value < s.nextId)
  }

  /**
    A non-blank result overwrites the pending text (the last one wins), stops
    the bot if it is speaking, and replaces the timer of the variable with a
    new one.
   */
  lemma LastResultWins(s: State, t: string)
    requires Inv(s) && s.connected && !s.finished && !AllSpace(t)
    ensures var o := Step(s, Heard(t));
      o.state.recognized == t && !o.state.speaking
      && o.actions == (if s.speaking then [D.StopPlayback] else [])
      && o.state.current == D.Some(s.nextId) && s.nextId in o.state.pending
      && (s.current.Some? ==> s.current.value !in o.state.pending)
      && o.state.pending - {s.nextId} <= s.pending
  {
  }

  /** `respond` takes effect once: it finishes the call, detaching the recogniser before the final text. */
  lemma RespondOnce(s: State)
    ensures s.finished ==> Respond(s) == Out(s, [])
    ensures !s.finished ==>
      var o := Respond(s);
      o.state.finished && !o.state.asrAttached && o.state.hangupListener
      && o.actions == (if s.asrAttached then [D.DetachAsr] else []) + [D.Speak(FinalText(s.recognized))]
      && Respond(o.state) == Out(o.state, [])
  {
  }

  lemma StepInv(s: State, e: Event)
    requires Inv(s)
    ensures Inv(Step(s, e).state)
  {
  }

  lemma {:induction false} RunInv(s: State, es: seq<Event>)
    requires Inv(s)
    ensures Inv(Run(s, es).state)
    decreases |es|
  {
    if |es| > 0 {
      StepInv(s, es[0]);
      RunInv(Step(s, es[0]).state, es[1..]);
    }
  }

  /** Every state a test call can reach satisfies the invariant. */
  lemma ReachableInv(es: seq<Event>)
    ensures Inv(Run(Init, es).state)
  {
    RunInv(Init, es);
  }

  /** A call hangs up exactly at the end of a playback after `respond` has finished it. */
  lemma HangupOnlyAfterRespond(s: State, e: Event)
    requires Inv(s)
    ensures D.Hangup in Step(s, e).actions <==> s.finished && e == PlaybackFinished
  {
  }

  /** The steps of a run in which `respond` takes effect. */
  function Responses(s: State, es: seq<Event>): (n: nat)
    decreases |es|
  {
    if |es| == 0 then 0
    else
      var s1 := Step(s, es[0]).state;
      (if s1.finished && !s.finished then 1 else 0) + Responses(s1, es[1..])
  }

  lemma FinishedStays(s: State, e: Event)
    ensures s.finished ==> Step(s, e).state.finished
  {
  }

  /** `respond` runs at most once per call, whatever the callbacks. */
  lemma {:induction false} RespondAtMostOnce(s: State, es: seq<Event>)
    ensures Responses(s, es) <= (if s.finished then 0 else 1)
    decreases |es|
  {
    if |es| > 0 {
      FinishedStays(s, es[0]);
      RespondAtMostOnce(Step(s, es[0]).state, es[1..]);
    }
  }

  lemma RunTwo(s: State, e: Event, es: seq<Event>)
    ensures var o1 := Step(s, e);
      var o2 := Run(o1.state, es);
      Run(s, [e] + es) == Out(o2.state, o1.actions + o2.actions)
  {
    assert ([e] + es)[0] == e && ([e] + es)[1..] == es;
  }

  /**
    A callee who talks over the greeting: the greeting is cut off, the short
    timer fires, the words are said back after the recogniser is detached, and
    the end of that playback hangs up.
   */
  lemma TalkOverGreeting(t: string)
    requires !AllSpace(t)
    ensures Run(Init, [Connected, Heard(t), TimerFired(0), PlaybackFinished]).actions
            == [D.Speak(Greeting), D.StopPlayback, D.DetachAsr, D.Speak(FinalText(t)), D.Hangup]
  {
    var o1 := Step(Init, Connected);
    var o2 := Step(o1.state, Heard(t));
    var o3 := Step(o2.state, TimerFired(0));
    var o4 := Step(o3.state, PlaybackFinished);
    assert o2.state.recognized == t && 0 in o2.state.pending;
    assert o3.actions == [D.DetachAsr, D.Speak(FinalText(t))];
    assert o4.actions == [D.Hangup];
    RunTwo(o3.state, PlaybackFinished, []);
    RunTwo(o2.state, TimerFired(0), [PlaybackFinished]);
    RunTwo(o1.state, Heard(t), [TimerFired(0), PlaybackFinished]);
    RunTwo(Init, Connected, [Heard(t), TimerFired(0), PlaybackFinished]);
  }
}
