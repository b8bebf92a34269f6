/**
  The inbound menu: after the menu is read, one choice per round is taken by
  a key press or by a spoken keyword. '1' starts the recognition test, '2'
  reads the information text and hangs up, any other key replays a prompt and
  starts a new round, and a round with no choice times out into the no-input
  prompt and another round, without limit.

  The playback-finished listeners live on the call, so several can be
  registered at once; one playback end runs all of them, in the order they
  were added, each removing itself first. Adding a listener that is already
  registered changes nothing. Each recognition test is a pending timer that
  carries the text its own recogniser last heard.
 */
module Ivr {
  import opened Text
  import D = Dialog

  datatype Listener = MenuFinished | StartTestMode | TestBeepFinished | EndCall

  datatype Event =
    | Connected
    | Tone(tone: string)
    | Voice(text: string)       // a result of the menu's recogniser
    | TestVoice(text: string)   // a result of the recognisers of running tests
    | PlaybackFinished
    | InputTimeout(id: nat)
    | TestTimeout(id: nat)

  /**
    `waiting` is `waitingForInput`; `asrOn` says the menu's recogniser is
    attached; `inputTimers` are the pending input timeouts and `current` the
    one the timeout variable holds; `tests` maps each pending test timer to
    the text its recogniser last heard.
   */
  datatype State = State(
    connected: bool,
    waiting: bool,
    dtmf: string,
    voice: string,
    asrOn: bool,
    listeners: seq<Listener>,
    inputTimers: set<nat>,
    current: D.Option<nat>,
    tests: map<nat, string>,
    nextId: nat)

  datatype Out = Out(state: State, actions: seq<D.Action>)

  const Init: State := State(false, false, "", "", false, [], {}, D.None, map[], 0)

  const MenuText: string :=
    "Здравствуйте! Добро пожаловать в систему Войкс. Нажмите 1 или скажите \"тест\" для проверки распознавания речи. Нажмите 2 или скажите \"информация\" для получения информации."
  const TestIntro: string := "Вы выбрали тест распознавания. Скажите что-нибудь после сигнала."
  const InfoText: string :=
    "Система Войкс - это платформа для тестирования телефонных звонков с использованием Voximplant и Яндекс Спичкит. Спасибо за звонок! До свидания!"
  const InvalidText: string := "Извините, я не понял ваш выбор. Попробуйте снова. Нажмите 1 для теста или 2 для информации."
  const NoInputText: string := "Я не получил ответа. Пожалуйста, нажмите 1 или 2, или скажите команду."
  const Beep: string := "бип"
  const EchoPrefix: string := "Вы сказали: "
  const EchoSuffix: string := ". Отличный тест! Спасибо за звонок!"
  const NotRecognised: string := "К сожалению, я не смог распознать речь. Спасибо за звонок!"

  /** The spoken keywords, matched in the lower-cased, trimmed result. */
  predicate MeansOne(v: string) {
    Occurs("тест", v) || Occurs("один", v) || v == "1"
  }

  predicate MeansTwo(v: string) {
    Occurs("информация", v) || Occurs("два", v) || v == "2"
  }

  /** The choice a spoken result makes: '1' wins when both keyword sets match. */
  function VoiceChoice(v: string): (c: D.Option<string>)
  {
    if MeansOne(v) then D.Some("1") else if MeansTwo(v) then D.Some("2") else D.None
  }

  /** What the test says back: the words heard, or that nothing was recognised. */
  function TestResponse(heard: string): (m: string)
  {
    if heard != "" then EchoPrefix + heard + EchoSuffix else NotRecognised
  }

  /** No listener is registered twice. */
  predicate NoDup(ls: seq<Listener>) {
    forall i, j :: 0 <= i < j < |ls| ==> ls[i] != ls[j]
  }

  /** `addEventListener`: a listener that is already registered is not added again. */
  function AddListener(s: State, l: Listener): (s1: State)
  {
    if l in s.listeners then s else s.(listeners := s.listeners + [l])
  }

  function RemoveListener(ls: seq<Listener>, l: Listener): (r: seq<Listener>)
    ensures forall x :: x in r <==> x in ls && x != l
  {
    if |ls| == 0 then []
    else if ls[0] == l then RemoveListener(ls[1..], l)
    else [ls[0]] + RemoveListener(ls[1..], l)
  }

  /** `clearTimeout(inputTimeout)`. */
  function ClearInput(s: State): (s1: State)
  {
    if s.current.Some? then s.(inputTimers := s.inputTimers - {s.current.value}) else s
  }

  /** `stopASR`: detach the menu's recogniser if it is attached. */
  function StopAsr(s: State): (o: Out)
  {
    if s.asrOn then Out(s.(asrOn := false), [D.DetachAsr]) else Out(s, [])
  }

  /** `processInput(value)`: '1' and '2' start their branches, anything else replays the invalid-input prompt. */
  function ProcessChoice(s: State, value: string): (o: Out)
  {
    if value == "1" then Out(AddListener(s, StartTestMode), [D.Speak(TestIntro)])
    else if value == "2" then Out(AddListener(s, EndCall), [D.Speak(InfoText)])
    else Out(AddListener(s, MenuFinished), [D.Speak(InvalidText)])
  }

  /** Accepting a choice: the round closes (timeout cleared, no longer waiting, recogniser stopped) and the choice is processed. */
  function Accept(s: State, value: string): (o: Out)
  {
    var stop := StopAsr(ClearInput(s).(waiting := false));
    var p := ProcessChoice(stop.state, value);
    Out(p.state, stop.actions + p.actions)
  }

  /** `onToneReceived`: any key is accepted while a round waits. */
  function OnTone(s: State, tone: string): (o: Out)
  {
    if !s.connected || !s.waiting then Out(s, [])
    else Accept(s.(dtmf := tone), tone)
  }

  /**
    `onASRResult`: while a round waits, a non-blank result is lower-cased and
    trimmed; a keyword is accepted, anything else is only remembered. The guard
    is the round's flag alone, so a result that arrives after the no-input
    timeout has stopped the recogniser is still taken.
   */
  function OnVoice(s: State, t: string): (o: Out)
  {
    if !s.waiting || AllSpace(t) then Out(s, [])
    else
      var v := Trim(LowerStr(t));
      match VoiceChoice(v)
      case Some(c) => Accept(s.(voice := v), c)
      case None => Out(s.(voice := v), [])
  }

  /** A non-blank result of the test recognisers becomes the text of every running test. */
  function OnTestVoice(s: State, t: string): (o: Out)
  {
    if AllSpace(t) then Out(s, [])
    else Out(s.(tests := map id | id in s.tests :: t), [])
  }

  /** `onMenuFinished`: a new round: waiting, inputs cleared, recogniser started, timeout armed. */
  function StartRound(s: State): (s1: State)
  {
    s.(waiting := true, dtmf := "", voice := "", asrOn := true,
       inputTimers := s.inputTimers + {s.nextId}, current := D.Some(s.nextId), nextId := s.nextId + 1)
  }

  /** One listener runs, after removing itself. */
  function RunListener(s: State, l: Listener): (o: Out)
  {
    var s1 := s.(listeners := RemoveListener(s.listeners, l));
    match l
    case MenuFinished => Out(StartRound(s1), [])
    case StartTestMode => Out(AddListener(s1, TestBeepFinished), [D.Speak(Beep)])
    case TestBeepFinished => Out(s1.(tests := s1.tests[s1.nextId := ""], nextId := s1.nextId + 1), [])
    case EndCall => Out(s1, [D.Hangup])
  }

  /** The listeners of a playback end, run in order on the state each leaves. */
  function RunListeners(s: State, ls: seq<Listener>): (o: Out)
    decreases |ls|
  {
    if |ls| == 0 then Out(s, [])
    else
      var o1 := RunListener(s, ls[0]);
      var o2 := RunListeners(o1.state, ls[1..]);
      Out(o2.state, o1.actions + o2.actions)
  }

  /** The no-input timeout: stop the recogniser and play the no-input prompt; `waitingForInput` is left set. */
  function OnInputTimeout(s: State, id: nat): (o: Out)
  {
    if id !in s.inputTimers then Out(s, [])
    else
      var stop := StopAsr(s.(inputTimers := s.inputTimers - {id}));
      Out(AddListener(stop.state, MenuFinished), stop.actions + [D.Speak(NoInputText)])
  }

  /** The end of a test: stop its recogniser, say what it heard, and hang up after that. */
  function OnTestTimeout(s: State, id: nat): (o: Out)
  {
    if id !in s.tests then Out(s, [])
    else
      var heard := s.tests[id];
      Out(AddListener(s.(tests := s.tests - {id}), EndCall), [D.DetachAsr, D.Speak(TestResponse(heard))])
  }

  function OnConnected(s: State): (o: Out)
  {
    if s.connected then Out(s, [])
    else Out(AddListener(s.(connected := true), MenuFinished), [D.Speak(MenuText)])
  }

  function Step(s: State, e: Event): (o: Out)
  {
    match e
    case Connected => OnConnected(s)
    case Tone(t) => OnTone(s, t)
    case Voice(t) => OnVoice(s, t)
    case TestVoice(t) => OnTestVoice(s, t)
    case PlaybackFinished => RunListeners(s, s.listeners)
    case InputTimeout(id) => OnInputTimeout(s, id)
    case TestTimeout(id) => OnTestTimeout(s, id)
  }

  function Run(s: State, es: seq<Event>): (o: Out)
    decreases |es|
  {
    if |es| == 0 then Out(s, [])
    else
      var o1 := Step(s, es[0]);
      var o2 := Run(o1.state, es[1..]);
      Out(o2.state, o1.actions + o2.actions)
  }

  // ---------------------------------------------------------------------
  // Properties
  // ---------------------------------------------------------------------

  /** Listener bookkeeping: no duplicates, and every timer and test is numbered below the next number. */
  predicate Inv(s: State) {
    NoDup(s.listeners)
    && (forall id <- s.inputTimers :: id < s.nextId)
    && (forall id <- s.tests :: id < s.nextId)
    && (s.current.Some? ==> s.current.value < s.nextId)
  }

  lemma AddListenerInv(s: State, l: Listener)
    requires Inv(s)
    ensures Inv(AddListener(s, l)) && l in AddListener(s, l).listeners
    ensures forall x :: x in AddListener(s, l).listeners <==> x in s.listeners || x == l
  {
    if l !in s.listeners {
      var ls := s.listeners + [l];
      forall i, j | 0 <= i < j < |ls|
        ensures ls[i] != ls[j]
      {
        if j == |ls| - 1 {
          assert ls[i] in s.listeners;
        }
      }
    }
  }

  /** Removing a listener keeps the others in order, so it keeps them distinct. */
  lemma {:induction false} RemoveListenerNoDup(ls: seq<Listener>, l: Listener)
    requires NoDup(ls)
    ensures NoDup(RemoveListener(ls, l))
    decreases |ls|
  {
    if |ls| > 0 {
      var tail := ls[1..];
      assert NoDup(tail) by {
        forall i, j | 0 <= i < j < |tail| ensures tail[i] != tail[j] {
          assert tail[i] == ls[i + 1] && tail[j] == ls[j + 1];
        }
      }
      RemoveListenerNoDup(tail, l);
      if ls[0] != l {
        var rest := RemoveListener(tail, l);
        var r := [ls[0]] + rest;
        assert ls[0] !in tail by {
          forall k | 0 <= k < |tail| ensures tail[k] != ls[0] {
            assert tail[k] == ls[k + 1];
          }
        }
        forall i, j | 0 <= i < j < |r| ensures r[i] != r[j] {
          if i == 0 {
            assert r[j] == rest[j - 1] && r[j] in rest;
          } else {
            assert r[i] == rest[i - 1] && r[j] == rest[j - 1];
          }
        }
      }
    }
  }

  lemma RunListenerInv(s: State, l: Listener)
    requires Inv(s)
    ensures Inv(RunListener(s, l).state)
  {
    var s1 := s.(listeners := RemoveListener(s.listeners, l));
    RemoveListenerNoDup(s.listeners, l);
    assert Inv(s1);
    if l == StartTestMode {
      AddListenerInv(s1, TestBeepFinished);
    }
  }

  lemma {:induction false} RunListenersInv(s: State, ls: seq<Listener>)
    requires Inv(s)
    ensures Inv(RunListeners(s, ls).state)
    decreases |ls|
  {
    if |ls| > 0 {
      RunListenerInv(s, ls[0]);
      RunListenersInv(RunListener(s, ls[0]).state, ls[1..]);
    }
  }

  lemma ProcessChoiceInv(s: State, value: string)
    requires Inv(s)
    ensures Inv(ProcessChoice(s, value).state)
  {
    if value == "1" {
      AddListenerInv(s, StartTestMode);
    } else if value == "2" {
      AddListenerInv(s, EndCall);
    } else {
      AddListenerInv(s, MenuFinished);
    }
  }

  lemma AcceptInv(s: State, value: string)
    requires Inv(s)
    ensures Inv(Accept(s, value).state)
  {
    ProcessChoiceInv(StopAsr(ClearInput(s).(waiting := false)).state, value);
  }

  lemma OnConnectedInv(s: State)
    requires Inv(s)
    ensures Inv(OnConnected(s).state)
  {
    if !s.connected {
      AddListenerInv(s.(connected := true), MenuFinished);
    }
  }

  lemma OnToneInv(s: State, t: string)
    requires Inv(s)
    ensures Inv(OnTone(s, t).state)
  {
    if s.connected && s.waiting {
      AcceptInv(s.(dtmf := t), t);
    }
  }

  lemma OnVoiceInv(s: State, t: string)
    requires Inv(s)
    ensures Inv(OnVoice(s, t).state)
  {
    if s.waiting && !AllSpace(t) {
      var v := Trim(LowerStr(t));
      if VoiceChoice(v).Some? {
        AcceptInv(s.(voice := v), VoiceChoice(v).value);
      }
    }
  }

  lemma OnInputTimeoutInv(s: State, id: nat)
    requires Inv(s)
    ensures Inv(OnInputTimeout(s, id).state)
  {
    if id in s.inputTimers {
      AddListenerInv(StopAsr(s.(inputTimers := s.inputTimers - {id})).state, MenuFinished);
    }
  }

  lemma OnTestTimeoutInv(s: State, id: nat)
    requires Inv(s)
    ensures Inv(OnTestTimeout(s, id).state)
  {
    if id in s.tests {
      AddListenerInv(s.(tests := s.tests - {id}), EndCall);
    }
  }

  lemma StepInv(s: State, e: Event)
    requires Inv(s)
    ensures Inv(Step(s, e).state)
  {
    match e
    case Connected => OnConnectedInv(s);
    case Tone(t) => OnToneInv(s, t);
    case Voice(t) => OnVoiceInv(s, t);
    case TestVoice(t) =>
    case PlaybackFinished => RunListenersInv(s, s.listeners);
    case InputTimeout(id) => OnInputTimeoutInv(s, id);
    case TestTimeout(id) => OnTestTimeoutInv(s, id);
  }

  lemma {:induction false} RunInv(s: State, es: seq<Event>)
    requires Inv(s)
    ensures Inv(Run(s, es).state)
    decreases |es|
  {
    if |es| > 0 {
      StepInv(s, es[0]);
      RunInv(Step(s, es[0]).state, es[1..]);
    }
  }

  /** Every state the menu can reach satisfies the invariant. */
  lemma ReachableInv(es: seq<Event>)
    ensures Inv(Run(Init, es).state)
  {
    RunInv(Init, es);
  }

  /** Accepting '1' closes the round and plays the test prompt. */
  lemma AcceptOne(s: State)
    ensures var o := Accept(s, "1");
      !o.state.waiting && !o.state.asrOn && StartTestMode in o.state.listeners
      && o.actions == (if s.asrOn then [D.DetachAsr] else []) + [D.Speak(TestIntro)]
  {
  }

  /**
    A spoken 'тест' or 'один' anywhere in the lower-cased, trimmed result (or
    exactly '1') chooses the test, even when a keyword of the information
    choice is there too; the round closes and the test prompt is played.
   */
  lemma SpokenOneWins(s: State, t: string)
    requires s.waiting && !AllSpace(t) && MeansOne(Trim(LowerStr(t)))
    ensures var o := Step(s, Voice(t));
      !o.state.waiting && !o.state.asrOn && StartTestMode in o.state.listeners
      && o.actions == (if s.asrOn then [D.DetachAsr] else []) + [D.Speak(TestIntro)]
  {
    var v := Trim(LowerStr(t));
    assert VoiceChoice(v) == D.Some("1");
    assert Step(s, Voice(t)) == Accept(s.(voice := v), "1");
    AcceptOne(s.(voice := v));
  }

  /**
    Without a keyword of the test choice, a spoken 'информация' or 'два'
    anywhere in the result (or exactly '2') chooses the information: the round
    closes, the information text is played, and its end hangs up.
   */
  lemma SpokenTwoChoosesInfo(s: State, t: string)
    requires s.waiting && !AllSpace(t)
    requires !MeansOne(Trim(LowerStr(t))) && MeansTwo(Trim(LowerStr(t)))
    ensures var o := Step(s, Voice(t));
      !o.state.waiting && !o.state.asrOn && EndCall in o.state.listeners
      && o.actions == (if s.asrOn then [D.DetachAsr] else []) + [D.Speak(InfoText)]
  {
    var v := Trim(LowerStr(t));
    assert VoiceChoice(v) == D.Some("2");
    assert Step(s, Voice(t)) == Accept(s.(voice := v), "2");
  }

  /** Without a keyword of either choice, a spoken result is only remembered and the round goes on. */
  lemma SpokenOtherIgnored(s: State, t: string)
    requires s.waiting && !AllSpace(t)
    requires !MeansOne(Trim(LowerStr(t))) && !MeansTwo(Trim(LowerStr(t)))
    ensures Step(s, Voice(t)) == Out(s.(voice := Trim(LowerStr(t))), [])
  {
  }

  /** Any key is accepted while a round waits; keys other than '1' and '2' replay the invalid-input prompt and lead to a new round. */
  lemma AnyToneAccepted(s: State, tone: string)
    requires s.connected && s.waiting
    ensures var o := Step(s, Tone(tone));
      o.state.dtmf == tone && !o.state.waiting && !o.state.asrOn
      && (tone != "1" && tone != "2" ==>
            MenuFinished in o.state.listeners
            && o.actions == (if s.asrOn then [D.DetachAsr] else []) + [D.Speak(InvalidText)])
  {
  }

  /** The step took a choice: the round was waiting and is not any more. */
  predicate Accepted(s: State, e: Event) {
    s.waiting && !Step(s, e).state.waiting
  }

  /** A round takes at most one choice: after one is taken, keys and spoken results are ignored. */
  lemma OneChoicePerRound(s: State, e1: Event, e2: Event)
    requires Accepted(s, e1) && (e2.Tone? || e2.Voice?)
    ensures var s1 := Step(s, e1).state; Step(s1, e2) == Out(s1, [])
  {
  }

  /** A round starts with both inputs cleared, waiting, the recogniser on and a fresh timeout pending. */
  lemma MenuStartsRound(s: State)
    requires s.listeners == [MenuFinished]
    ensures var o := Step(s, PlaybackFinished);
      o.actions == [] && o.state.waiting && o.state.dtmf == "" && o.state.voice == "" && o.state.asrOn
      && o.state.current == D.Some(s.nextId) && s.nextId in o.state.inputTimers && o.state.listeners == []
  {
    OnlyListener(s, MenuFinished);
  }

  /** A waiting round with its own timeout pending and nothing else registered. */
  predicate InRound(s: State, k: nat) {
    s.connected && s.waiting && s.asrOn && s.listeners == []
    && s.current == D.Some(k) && k in s.inputTimers && s.nextId == k + 1
  }

  /** The events of `n` rounds in which nobody answers, starting with timeout `k`. */
  function SilentRounds(k: nat, n: nat): (es: seq<Event>)
    decreases n
  {
    if n == 0 then [] else [InputTimeout(k), PlaybackFinished] + SilentRounds(k + 1, n - 1)
  }

  function Repeat(acts: seq<D.Action>, n: nat): (r: seq<D.Action>)
    decreases n
  {
    if n == 0 then [] else acts + Repeat(acts, n - 1)
  }

  lemma {:induction false} RunAppend(s: State, a: seq<Event>, b: seq<Event>)
    ensures var o1 := Run(s, a);
      var o2 := Run(o1.state, b);
      Run(s, a + b) == Out(o2.state, o1.actions + o2.actions)
    decreases |a|
  {
    if |a| == 0 {
      assert a + b == b;
    } else {
      assert (a + b)[0] == a[0] && (a + b)[1..] == a[1..] + b;
      RunAppend(Step(s, a[0]).state, a[1..], b);
    }
  }

  lemma RunTwo(s: State, e: Event, es: seq<Event>)
    ensures var o1 := Step(s, e);
      var o2 := Run(o1.state, es);
      Run(s, [e] + es) == Out(o2.state, o1.actions + o2.actions)
  {
    assert ([e] + es)[0] == e && ([e] + es)[1..] == es;
  }

  /** A playback end with one listener registered runs just that listener, which leaves none. */
  lemma OnlyListener(s: State, l: Listener)
    requires s.listeners == [l]
    ensures Step(s, PlaybackFinished) == RunListener(s, l)
    ensures RunListener(s, l).state.listeners == (if l == StartTestMode then [TestBeepFinished] else [])
  {
    assert RemoveListener([l], l) == RemoveListener([], l) == [];
    assert [l][0] == l && [l][1..] == [];
    var o1 := RunListener(s, l);
    assert RunListeners(o1.state, []) == Out(o1.state, []);
    assert o1.actions + [] == o1.actions;
    assert RunListeners(s, [l]) == Out(o1.state, o1.actions + []);
  }

  /** One unanswered round: the timeout stops the recogniser, plays the no-input prompt, and its end starts the next round. */
  lemma SilentRound(s: State, k: nat)
    requires InRound(s, k)
    ensures var o := Run(s, [InputTimeout(k), PlaybackFinished]);
      InRound(o.state, k + 1) && o.actions == [D.DetachAsr, D.Speak(NoInputText)]
  {
    var o1 := Step(s, InputTimeout(k));
    assert o1.state.listeners == [MenuFinished];
    OnlyListener(o1.state, MenuFinished);
    RunTwo(o1.state, PlaybackFinished, []);
    RunTwo(s, InputTimeout(k), [PlaybackFinished]);
  }

  /** The no-input loop has no bound: after any number of unanswered rounds the menu is still waiting for a choice. */
  lemma {:induction false} NoInputLoopUnbounded(s: State, k: nat, n: nat)
    requires InRound(s, k)
    ensures var o := Run(s, SilentRounds(k, n));
      InRound(o.state, k + n) && o.actions == Repeat([D.DetachAsr, D.Speak(NoInputText)], n)
    decreases n
  {
    if n > 0 {
      SilentRound(s, k);
      var s1 := Run(s, [InputTimeout(k), PlaybackFinished]).state;
      NoInputLoopUnbounded(s1, k + 1, n - 1);
      RunAppend(s, [InputTimeout(k), PlaybackFinished], SilentRounds(k + 1, n - 1));
    }
  }

  /**
    The no-input timeout stops the recogniser but leaves the round waiting, so
    a late spoken '1' during the no-input prompt is still accepted: the test
    prompt follows the no-input prompt, and both the new menu round and the
    test mode are registered for the end of playback.
   */
  lemma LateAnswerDuringNoInputPrompt(s: State, k: nat, t: string)
    requires InRound(s, k) && !AllSpace(t) && MeansOne(Trim(LowerStr(t)))
    ensures var o := Run(s, [InputTimeout(k), Voice(t)]);
      o.actions == [D.DetachAsr, D.Speak(NoInputText), D.Speak(TestIntro)]
      && o.state.listeners == [MenuFinished, StartTestMode] && !o.state.waiting
  {
    var o1 := Step(s, InputTimeout(k));
    assert o1.state.listeners == [MenuFinished] && o1.state.waiting && !o1.state.asrOn;
    SpokenOneWins(o1.state, t);
    var o2 := Step(o1.state, Voice(t));
    assert o2.state.listeners == [MenuFinished, StartTestMode];
    RunTwo(o1.state, Voice(t), []);
    RunTwo(s, InputTimeout(k), [Voice(t)]);
  }

  /** Choosing '2' plays the information text and the end of it hangs up. */
  lemma InfoThenHangup(s: State, k: nat)
    requires InRound(s, k)
    ensures Run(s, [Tone("2"), PlaybackFinished]).actions == [D.DetachAsr, D.Speak(InfoText), D.Hangup]
  {
    var o1 := Step(s, Tone("2"));
    assert o1.state.listeners == [EndCall];
    OnlyListener(o1.state, EndCall);
    RunTwo(o1.state, PlaybackFinished, []);
    RunTwo(s, Tone("2"), [PlaybackFinished]);
  }

  /** A test whose timer is pending with the text its recogniser last heard, and nothing else registered or running. */
  predicate Testing(s: State, id: nat, heard: string) {
    s.listeners == [] && s.tests == map[id := heard]
  }

  lemma ToneOneStep(s: State, k: nat)
    requires InRound(s, k)
    ensures var o := Step(s, Tone("1"));
      o.state.listeners == [StartTestMode] && o.state.tests == s.tests && o.state.nextId == k + 1
      && o.actions == [D.DetachAsr, D.Speak(TestIntro)]
  {
  }

  lemma BeepStep(s: State)
    requires s.listeners == [StartTestMode]
    ensures var o := Step(s, PlaybackFinished);
      o.state.listeners == [TestBeepFinished] && o.state.tests == s.tests && o.state.nextId == s.nextId
      && o.actions == [D.Speak(Beep)]
  {
    OnlyListener(s, StartTestMode);
  }

  lemma TestArmedStep(s: State)
    requires s.listeners == [TestBeepFinished] && s.tests == map[]
    ensures var o := Step(s, PlaybackFinished);
      Testing(o.state, s.nextId, "") && o.actions == []
  {
    OnlyListener(s, TestBeepFinished);
  }

  lemma TestHearsStep(s: State, id: nat, heard: string, t: string)
    requires Testing(s, id, heard) && !AllSpace(t)
    ensures var o := Step(s, TestVoice(t));
      Testing(o.state, id, t) && o.actions == []
  {
    assert (map x | x in s.tests :: t) == map[id := t];
  }

  lemma TestEndsStep(s: State, id: nat, heard: string)
    requires Testing(s, id, heard)
    ensures var o := Step(s, TestTimeout(id));
      o.state.listeners == [EndCall] && o.actions == [D.DetachAsr, D.Speak(TestResponse(heard))]
  {
  }

  lemma HangupStep(s: State)
    requires s.listeners == [EndCall]
    ensures Step(s, PlaybackFinished).actions == [D.Hangup]
  {
    OnlyListener(s, EndCall);
  }

  /**
    Choosing '1' plays the test prompt, then the beep; the test's recogniser
    then keeps the last non-blank words, and when its timer fires they are
    said back and the end of that hangs up.
   */
  lemma TestModeEchoes(s: State, k: nat, t: string)
    requires InRound(s, k) && s.tests == map[] && !AllSpace(t)
    ensures Run(s, [Tone("1"), PlaybackFinished, PlaybackFinished, TestVoice(t), TestTimeout(k + 1), PlaybackFinished]).actions
            == [D.DetachAsr, D.Speak(TestIntro), D.Speak(Beep), D.DetachAsr, D.Speak(TestResponse(t)), D.Hangup]
  {
    var o1 := Step(s, Tone("1"));
    ToneOneStep(s, k);
    var o2 := Step(o1.state, PlaybackFinished);
    BeepStep(o1.state);
    var o3 := Step(o2.state, PlaybackFinished);
    TestArmedStep(o2.state);
    var o4 := Step(o3.state, TestVoice(t));
    TestHearsStep(o3.state, k + 1, "", t);
    var o5 := Step(o4.state, TestTimeout(k + 1));
    TestEndsStep(o4.state, k + 1, t);
    HangupStep(o5.state);
    RunTwo(o5.state, PlaybackFinished, []);
    RunTwo(o4.state, TestTimeout(k + 1), [PlaybackFinished]);
    RunTwo(o3.state, TestVoice(t), [TestTimeout(k + 1), PlaybackFinished]);
    RunTwo(o2.state, PlaybackFinished, [TestVoice(t), TestTimeout(k + 1), PlaybackFinished]);
    RunTwo(o1.state, PlaybackFinished, [PlaybackFinished, TestVoice(t), TestTimeout(k + 1), PlaybackFinished]);
    RunTwo(s, Tone("1"), [PlaybackFinished, PlaybackFinished, TestVoice(t), TestTimeout(k + 1), PlaybackFinished]);
  }

  lemma TestResponseEcho(heard: string)
    ensures heard != "" ==>
      var m := TestResponse(heard);
      m[..|EchoPrefix|] == EchoPrefix && m[|EchoPrefix|..|EchoPrefix| + |heard|] == heard
      && m[|EchoPrefix| + |heard|..] == EchoSuffix
    ensures heard == "" ==> TestResponse(heard) == NotRecognised
    ensures TestResponse(heard)[0] == (if heard != "" then EchoPrefix[0] else NotRecognised[0])
  {
  }

  /** The test says back exactly what it heard: different words give different answers. */
  lemma TestResponseInjective(a: string, b: string)
    requires TestResponse(a) == TestResponse(b)
    ensures a == b
  {
    TestResponseEcho(a);
    TestResponseEcho(b);
    if a != "" && b != "" {
      assert |a| == |b|;
    }
  }
}
