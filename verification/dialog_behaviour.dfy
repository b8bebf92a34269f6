/**
  What the dialog controller does, callback by callback: how a call ends, how
  the caller's words are screened, how silence is counted, when the caller is
  heard, and which callbacks can hang up.
 */
module DialogBehaviour {
  import opened Text
  import opened Phrases
  import opened Dialog
  import opened DialogProps

  // ---------------------------------------------------------------------
  // Ending the call
  // ---------------------------------------------------------------------

  /** The recogniser detach that precedes a farewell, when one is attached. */
  function Detach(s: State): (acts: seq<Action>)
  {
    if s.asrAttached then [DetachAsr] else []
  }

  /**
    `o` ends the call that was in state `s` with the farewell `msg`: the call is
    finished, the recogniser is detached before the farewell is spoken, the
    timer is cleared, and the conversation itself (turn, history, requests) is
    left as it was.
   */
  predicate EndsWith(s: State, o: Out, msg: string) {
    o.state.finished && !o.state.asrAttached && o.state.timer == Idle
    && o.state.turn == s.turn && o.state.history == s.history && o.state.requested == s.requested
    && o.state.usedFiller == s.usedFiller && o.state.silenceCount == s.silenceCount
    && o.actions == Detach(s) + [Speak(msg)]
  }

  /** `endConversation` takes effect once: the first call ends the call, any later one is a no-op. */
  lemma EndTakesEffectOnce(cfg: Config, s: State, msg: string, again: string)
    ensures s.finished ==> End(cfg, s, msg) == Out(s, [])
    ensures !s.finished ==> EndsWith(s, End(cfg, s, msg), msg)
    ensures var s1 := End(cfg, s, msg).state; End(cfg, s1, again) == Out(s1, [])
  {
    match cfg.scenario
    case Elevenlabs =>
    case Inbound =>
    case Assistant =>
    case SmartBot =>
  }

  /**
    How each scenario hangs up after its farewell. Elevenlabs and inbound arm
    the fallback timer and leave a farewell callback that finds the call
    finished, so the playback end is silent and the timer hangs up. Assistant
    and smart-bot hang up when the farewell's playback ends. Only inbound logs
    the farewell.
   */
  lemma FarewellHangsUp(cfg: Config, s: State, msg: string)
    requires !s.finished
    ensures var s1 := End(cfg, s, msg).state;
      var p := OnPlaybackFinished(cfg, s1);
      (HangsUpByTimer(cfg.scenario) ==>
        p.actions == [] && Step(cfg, p.state, HangupTimerFired).actions == [Hangup])
      && (!HangsUpByTimer(cfg.scenario) ==> p.actions == [Hangup] && s1.hangupTimer == s.hangupTimer)
      && s1.log == s.log + (if cfg.scenario == Inbound then [Said(AssistantRole, msg)] else [])
  {
    match cfg.scenario
    case Elevenlabs =>
    case Inbound =>
    case Assistant =>
    case SmartBot =>
  }

  // ---------------------------------------------------------------------
  // Backend replies
  // ---------------------------------------------------------------------

  /**
    What handling a reply can do, whatever its text: nothing once the call is
    finished; otherwise the cleaned reply is appended to the history as the
    assistant's, the turn, requests, filler flag and silence count stay, and
    the only calls are a detach and the reply spoken.
   */
  predicate ReplyShape(cfg: Config, s: State, o: Out) {
    (s.finished ==> o == Out(s, []))
    && (!s.finished ==>
          |o.state.history| == |s.history| + 1 && o.state.history[..|s.history|] == s.history
          && o.state.history[|s.history|].role == AssistantRole
          && o.state.turn == s.turn && o.state.requested == s.requested && o.state.answered == s.answered
          && o.state.usedFiller == s.usedFiller && o.state.silenceCount == s.silenceCount
          && (forall a <- o.actions :: a.Speak? || a.DetachAsr?)
          && o.actions != [] && o.actions[|o.actions| - 1] == Speak(o.state.history[|s.history|].text))
  }

  /** A recorded reply that is a farewell ends the call with itself; any other is spoken, and listening resumes after it. */
  lemma AnswerEffect(cfg: Config, s: State, reply: string, ends: bool)
    requires !s.finished
    ensures ends ==> EndsWith(s, Answer(cfg, s, reply, ends), reply)
    ensures !ends ==> Answer(cfg, s, reply, ends)
                      == Out(s.(speaking := true, canListen := (cfg.scenario != Inbound && s.canListen), after := Some(ResumeListening)),
                             [Speak(reply)])
  {
    if ends {
      EndTakesEffectOnce(cfg, s, reply, reply);
    }
  }

  /**
    Handling a reply records the cleaned reply as the assistant's, in the
    history and, for inbound, in the log, and then answers with it.
   */
  lemma ReplyHandled(cfg: Config, s: State, text: string)
    requires !s.finished
    ensures var reply := Sanitise(cfg.scenario, text);
      var s1 := RecordReply(cfg, s, reply);
      s1.history == s.history + [Entry(AssistantRole, reply)]
      && s1.log == s.log + (if cfg.scenario == Inbound then [Said(AssistantRole, reply)] else [])
      && HandleReply(cfg, s, text) == Answer(cfg, s1, reply, IsEndReply(cfg.scenario, reply))
  {
  }

  lemma AnswerShape(cfg: Config, s: State, reply: string, ends: bool, h: seq<Entry>)
    requires !s.finished && s.history == h + [Entry(AssistantRole, reply)]
    ensures var o := Answer(cfg, s, reply, ends);
      |o.state.history| == |h| + 1 && o.state.history[..|h|] == h
      && o.state.history[|h|].role == AssistantRole
      && o.state.turn == s.turn && o.state.requested == s.requested && o.state.answered == s.answered
      && o.state.usedFiller == s.usedFiller && o.state.silenceCount == s.silenceCount
      && (forall a <- o.actions :: a.Speak? || a.DetachAsr?)
      && o.actions != [] && o.actions[|o.actions| - 1] == Speak(o.state.history[|h|].text)
  {
    AnswerEffect(cfg, s, reply, ends);
    match cfg.scenario
    case Elevenlabs =>
    case Inbound =>
    case Assistant =>
    case SmartBot =>
  }

  lemma ReplyShapeOf(cfg: Config, s: State, text: string)
    ensures ReplyShape(cfg, s, HandleReply(cfg, s, text))
  {
    if !s.finished {
      var reply := Sanitise(cfg.scenario, text);
      var s1 := RecordReply(cfg, s, reply);
      ReplyHandled(cfg, s, text);
      AnswerShape(cfg, s1, reply, IsEndReply(cfg.scenario, reply), s.history);
    }
  }

  lemma OutcomeShape(cfg: Config, s: State, r: Outcome)
    ensures s.answered >= s.requested ==> OnLlmOutcome(cfg, s, r) == Out(s, [])
    ensures s.answered < s.requested ==> ReplyShape(cfg, CountAnswer(s), OnLlmOutcome(cfg, s, r))
  {
    if s.answered < s.requested {
      ReplyShapeOf(cfg, CountAnswer(s), OutcomeText(cfg, r));
      AnsweredOutcome(cfg, s, r);
    }
  }

  /** The three failure kinds of every scenario map to three different fixed replies. */
  lemma FallbacksDistinct(sc: Scenario)
    ensures var f := FailureReplies(sc);
      f.first != f.second && f.second != f.third && f.first != f.third
  {
    var f := FailureReplies(sc);
    match sc
    case Elevenlabs => assert |f.first| == 29 && |f.second| == 19 && |f.third| == 16;
    case Assistant => assert |f.first| == 29 && |f.second| == 19 && |f.third| == 16;
    case Inbound => assert |f.first| == 25 && |f.third| == 29 && f.second[0] == 'Х' && f.third[0] == 'П';
    case SmartBot => assert f.first[0] == 'И' && f.second[0] == 'О' && f.third[0] == 'П';
  }

  /** A backend request carries the system prompt, then (except in smart-bot) the greeting as the assistant's, then the history in order. */
  lemma MessagesOrder(cfg: Config, h: seq<Entry>)
    ensures var ms := Messages(cfg, h);
      ms[0] == Entry(SystemRole, cfg.systemPrompt)
      && (cfg.scenario == SmartBot ==> ms[1..] == h)
      && (cfg.scenario != SmartBot ==> ms[1] == Entry(AssistantRole, cfg.greeting) && ms[2..] == h)
  {
  }

  // ---------------------------------------------------------------------
  // The caller's words
  // ---------------------------------------------------------------------

  /**
    `o` is the fall-through of `processUserInput` from state `s`: the caller's
    words are appended to the history as the user's; the filler is spoken if
    the scenario has one and has not used it yet, and otherwise one backend
    request carries the whole conversation.
   */
  predicate AsksBackend(cfg: Config, s: State, text: string, o: Out) {
    var h := s.history + [Entry(UserRole, text)];
    var filler := cfg.texts.filler;
    !o.state.finished && o.state.history == h && o.state.turn == s.turn && o.state.silenceCount == s.silenceCount
    && (filler.Some? && !s.usedFiller ==>
          o.state.usedFiller && o.state.requested == s.requested && o.state.after == Some(FillerDone)
          && o.actions == [Speak(filler.value)])
    && (!(filler.Some? && !s.usedFiller) ==>
          o.state.usedFiller == s.usedFiller && o.state.requested == s.requested + 1
          && o.actions == [RequestLlm(Messages(cfg, h))])
  }

  /** A screening verdict ends the call with its farewell; no verdict goes on to the backend. */
  lemma ScreeningEffect(cfg: Config, s: State, text: string, verdict: Option<string>)
    requires !s.finished
    ensures verdict.Some? ==> EndsWith(s, AfterScreening(cfg, s, text, verdict), verdict.value)
    ensures verdict.None? ==> AsksBackend(cfg, s, text, AfterScreening(cfg, s, text, verdict))
  {
    if verdict.Some? {
      EndTakesEffectOnce(cfg, s, verdict.value, verdict.value);
    }
  }

  /** Before it screens the words, `processUserInput` moves to the next turn and clears the pending text and the timer. */
  lemma TurnBegins(cfg: Config, s: State, text: string)
    requires !s.finished
    ensures var s1 := BeginTurn(cfg, s, text);
      s1.turn == s.turn + 1 && s1.recognized == "" && s1.timer == Idle
      && s1.history == s.history && s1.usedFiller == s.usedFiller && s1.silenceCount == s.silenceCount
      && s1.asrAttached == s.asrAttached && s1.requested == s.requested
      && ProcessInput(cfg, s, text) == AfterScreening(cfg, s1, text, Screen(cfg, LowerStr(text), s.turn + 1))
  {
  }

  /**
    Elevenlabs screens the caller's words in this order: a wish to end the
    call (answered with Aisha's farewell), a full date and time (confirmed),
    then the turn cap of 8; only words that pass all three reach the backend.
   */
  lemma ElevenlabsScreening(cfg: Config, s: State, text: string)
    requires cfg.scenario == Elevenlabs && !s.finished
    ensures var lower := LowerStr(text);
      var s1 := BeginTurn(cfg, s, text);
      var o := ProcessInput(cfg, s, text);
      (ShouldEndCall(lower) ==> EndsWith(s1, o, GetFarewell(Aisha, lower)))
      && (!ShouldEndCall(lower) && HasFullDateTime(lower) ==> EndsWith(s1, o, cfg.texts.confirm))
      && (!ShouldEndCall(lower) && !HasFullDateTime(lower) && s.turn + 1 > 8 ==> EndsWith(s1, o, cfg.texts.cap))
      && (!ShouldEndCall(lower) && !HasFullDateTime(lower) && s.turn + 1 <= 8 ==> AsksBackend(cfg, s1, text, o))
  {
    var s1 := BeginTurn(cfg, s, text);
    TurnBegins(cfg, s, text);
    ScreeningEffect(cfg, s1, text, Screen(cfg, LowerStr(text), s.turn + 1));
  }

  /**
    Assistant screens in the same order with Filipp's farewell, but its time
    test accepts a day or a time word alone; the turn cap is 8.
   */
  lemma AssistantScreening(cfg: Config, s: State, text: string)
    requires cfg.scenario == Assistant && !s.finished
    ensures var lower := LowerStr(text);
      var s1 := BeginTurn(cfg, s, text);
      var o := ProcessInput(cfg, s, text);
      (ShouldEndCall(lower) ==> EndsWith(s1, o, GetFarewell(Filipp, lower)))
      && (!ShouldEndCall(lower) && HasDayOrTime(lower) ==> EndsWith(s1, o, cfg.texts.confirm))
      && (!ShouldEndCall(lower) && !HasDayOrTime(lower) && s.turn + 1 > 8 ==> EndsWith(s1, o, cfg.texts.cap))
      && (!ShouldEndCall(lower) && !HasDayOrTime(lower) && s.turn + 1 <= 8 ==> AsksBackend(cfg, s1, text, o))
  {
    var s1 := BeginTurn(cfg, s, text);
    TurnBegins(cfg, s, text);
    ScreeningEffect(cfg, s1, text, Screen(cfg, LowerStr(text), s.turn + 1));
  }

  /**
    Inbound logs the caller's words before screening them, ends on a goodbye
    or past the turn cap of 10, and otherwise asks the backend (it has no filler).
   */
  lemma InboundScreening(cfg: Config, s: State, text: string)
    requires cfg.scenario == Inbound && !s.finished
    ensures var lower := LowerStr(text);
      var s1 := BeginTurn(cfg, s, text);
      var o := ProcessInput(cfg, s, text);
      s1.log == s.log + [Said(UserRole, text)]
      && (IsUserGoodbye(lower) ==> EndsWith(s1, o, cfg.texts.goodbye))
      && (!IsUserGoodbye(lower) && s.turn + 1 > 10 ==> EndsWith(s1, o, cfg.texts.cap))
      && (!IsUserGoodbye(lower) && s.turn + 1 <= 10 ==> AsksBackend(cfg, s1, text, o))
  {
    var s1 := BeginTurn(cfg, s, text);
    TurnBegins(cfg, s, text);
    ScreeningEffect(cfg, s1, text, Screen(cfg, LowerStr(text), s.turn + 1));
  }

  /** Smart-bot only checks the turn cap of 10 before asking the backend. */
  lemma SmartBotScreening(cfg: Config, s: State, text: string)
    requires cfg.scenario == SmartBot && !s.finished
    ensures var s1 := BeginTurn(cfg, s, text);
      var o := ProcessInput(cfg, s, text);
      (s.turn + 1 > 10 ==> EndsWith(s1, o, cfg.texts.cap))
      && (s.turn + 1 <= 10 ==> AsksBackend(cfg, s1, text, o))
  {
    var s1 := BeginTurn(cfg, s, text);
    TurnBegins(cfg, s, text);
    ScreeningEffect(cfg, s1, text, Screen(cfg, LowerStr(text), s.turn + 1));
  }

  /** A bare day word ends an assistant call with the confirmation, without asking the backend. */
  lemma AssistantEndsOnBareDay(cfg: Config, s: State, text: string, day: string)
    requires cfg.scenario == Assistant && !s.finished
    requires day in DayPatterns && Occurs(day, LowerStr(text)) && !ShouldEndCall(LowerStr(text))
    ensures EndsWith(BeginTurn(cfg, s, text), ProcessInput(cfg, s, text), cfg.texts.confirm)
  {
    BareDayIsTimeForAssistant(LowerStr(text), day);
    AssistantScreening(cfg, s, text);
  }

  /**
    What processing the caller's words can do, whatever they are: nothing once
    the call is finished; otherwise the next turn, with the silence count
    kept, the filler flag never cleared and set only together with speaking
    the filler, and only speech, backend requests and a detach as calls.
   */
  predicate InputShape(cfg: Config, s: State, o: Out) {
    (s.finished ==> o == Out(s, []))
    && (!s.finished ==>
          o.state.turn == s.turn + 1 && o.state.silenceCount == s.silenceCount
          && (s.usedFiller ==> o.state.usedFiller)
          && (o.state.usedFiller && !s.usedFiller ==>
                cfg.texts.filler.Some? && o.actions == [Speak(cfg.texts.filler.value)])
          && (forall a <- o.actions :: a.Speak? || a.RequestLlm? || a.DetachAsr?))
  }

  lemma InputShapeOf(cfg: Config, s: State, text: string)
    ensures InputShape(cfg, s, ProcessInput(cfg, s, text))
  {
    if !s.finished {
      var s1 := BeginTurn(cfg, s, text);
      TurnBegins(cfg, s, text);
      ScreeningEffect(cfg, s1, text, Screen(cfg, LowerStr(text), s.turn + 1));
    }
  }

  // ---------------------------------------------------------------------
  // Which callbacks stop playback and which hang up
  // ---------------------------------------------------------------------

  /** Actions that neither cut the bot off nor hang up. */
  predicate Quiet(acts: seq<Action>) {
    StopPlayback !in acts && Hangup !in acts
  }

  lemma InputQuiet(cfg: Config, s: State, text: string)
    ensures Quiet(ProcessInput(cfg, s, text).actions)
  {
    InputShapeOf(cfg, s, text);
  }

  lemma SilenceQuiet(cfg: Config, s: State)
    ensures Quiet(SilenceTick(cfg, s).actions)
  {
    SilenceTickShape(cfg, s);
  }

  lemma OutcomeQuiet(cfg: Config, s: State, r: Outcome)
    ensures Quiet(OnLlmOutcome(cfg, s, r).actions)
  {
    OutcomeShape(cfg, s, r);
  }

  /** Only recognition results stop the bot's speech, and only a playback end or the fallback timer hangs up. */
  lemma StepActionKinds(cfg: Config, s: State, e: Event)
    ensures StopPlayback in Step(cfg, s, e).actions ==> e.AsrResult? || e.AsrInterim?
    ensures Hangup in Step(cfg, s, e).actions ==> e == PlaybackFinished || e == HangupTimerFired
  {
    match e
    case DebounceFired =>
      InputQuiet(cfg, s.(timer := Idle), s.recognized);
    case SilenceTimerFired =>
      InputQuiet(cfg, s.(timer := Idle), s.recognized);
      SilenceQuiet(cfg, s.(timer := Idle));
    case LlmOutcome(r) =>
      OutcomeQuiet(cfg, s, r);
    case _ =>
  }

  /**
    A silent timeout below the cap re-prompts and listens again. Smart-bot
    always says its first prompt and counts nothing; the others count the
    timeout and say prompt number `count`, so with the end at three the third
    prompt is never said.
   */
  lemma SilencePrompt(cfg: Config, s: State)
    requires !CountsSilence(cfg.scenario) || s.silenceCount + 1 < 3
    ensures var o := SilenceTick(cfg, s);
      var p := cfg.texts.prompts;
      o.actions == [Speak(if CountsSilence(cfg.scenario) && s.silenceCount == 1 then p.second else p.first)]
      && o.state.silenceCount == (if CountsSilence(cfg.scenario) then s.silenceCount + 1 else s.silenceCount)
      && o.state.after == Some(ResumeListening) && o.state.finished == s.finished
      && o.state.usedFiller == s.usedFiller && o.state.turn == s.turn
  {
    if CountsSilence(cfg.scenario) {
      CountedPrompt(cfg, s);
    } else {
      UncountedPrompt(cfg, s);
    }
  }

  lemma CountedPrompt(cfg: Config, s: State)
    requires CountsSilence(cfg.scenario) && s.silenceCount + 1 < 3
    ensures var o := SilenceTick(cfg, s);
      o.actions == [Speak(cfg.texts.prompts.At(s.silenceCount))]
      && o.state.silenceCount == s.silenceCount + 1
      && o.state.after == Some(ResumeListening) && o.state.finished == s.finished
      && o.state.usedFiller == s.usedFiller && o.state.turn == s.turn
  {
  }

  lemma UncountedPrompt(cfg: Config, s: State)
    requires !CountsSilence(cfg.scenario)
    ensures var o := SilenceTick(cfg, s);
      o.actions == [Speak(cfg.texts.prompts.first)] && o.state.silenceCount == s.silenceCount
      && o.state.after == Some(ResumeListening) && o.state.finished == s.finished
      && o.state.usedFiller == s.usedFiller && o.state.turn == s.turn
  {
  }

  /** The third silent timeout in a row ends the call with the scenario's connection-lost farewell. */
  lemma SilenceEnd(cfg: Config, s: State)
    requires CountsSilence(cfg.scenario) && s.silenceCount + 1 >= 3
    ensures var s1 := s.(silenceCount := s.silenceCount + 1);
      SilenceTick(cfg, s) == End(cfg, s1, cfg.texts.silenceEnd)
  {
  }

  /** A silent timeout keeps the filler flag and only speaks, possibly after a detach. */
  lemma SilenceTickShape(cfg: Config, s: State)
    ensures SilenceTick(cfg, s).state.usedFiller == s.usedFiller
    ensures forall a <- SilenceTick(cfg, s).actions :: a.Speak? || a.DetachAsr?
  {
    if CountsSilence(cfg.scenario) && s.silenceCount + 1 >= 3 {
      var s1 := s.(silenceCount := s.silenceCount + 1);
      SilenceEnd(cfg, s);
      EndTakesEffectOnce(cfg, s1, cfg.texts.silenceEnd, cfg.texts.silenceEnd);
    } else {
      SilencePrompt(cfg, s);
    }
  }

  /**
    Only a finished call hangs up. Elevenlabs and inbound hang up only by the
    fallback timer (their farewell callback is disabled by the finished flag);
    assistant and smart-bot only when the farewell's playback ends.
   */
  lemma HangupOnlyWhenFinished(cfg: Config, s: State, e: Event)
    requires Inv(cfg, s)
    ensures Hangup in Step(cfg, s, e).actions ==>
              s.finished && (HangsUpByTimer(cfg.scenario) <==> e == HangupTimerFired)
  {
    StepActionKinds(cfg, s, e);
  }

  /**
    Inbound has no barge-in: its gate is closed while it speaks, so no
    callback ever stops playback.
   */
  lemma InboundNoBargeIn(cfg: Config, s: State, e: Event)
    requires cfg.scenario == Inbound && Inv(cfg, s)
    ensures StopPlayback !in Step(cfg, s, e).actions
  {
    StepActionKinds(cfg, s, e);
  }

  lemma {:induction false} InboundNeverStopsFrom(cfg: Config, s: State, es: seq<Event>)
    requires cfg.scenario == Inbound && Inv(cfg, s)
    ensures StopPlayback !in Run(cfg, s, es).actions
    decreases |es|
  {
    if |es| > 0 {
      InboundNoBargeIn(cfg, s, es[0]);
      StepInv(cfg, s, es[0]);
      InboundNeverStopsFrom(cfg, Step(cfg, s, es[0]).state, es[1..]);
    }
  }

  /** No inbound call, whatever the callbacks, ever stops its own playback. */
  lemma InboundNeverStopsPlayback(cfg: Config, es: seq<Event>)
    requires cfg.scenario == Inbound
    ensures StopPlayback !in Run(cfg, Init, es).actions
  {
    InitInv(cfg);
    InboundNeverStopsFrom(cfg, Init, es);
  }

  // ---------------------------------------------------------------------
  // The filler
  // ---------------------------------------------------------------------

  /** The filler flag is kept, and a step that sets it speaks the filler and nothing else. */
  predicate FillerKept(cfg: Config, s: State, o: Out) {
    (s.usedFiller ==> o.state.usedFiller)
    && (o.state.usedFiller && !s.usedFiller ==>
          cfg.texts.filler.Some? && o.actions == [Speak(cfg.texts.filler.value)])
  }

  lemma InputFillerKept(cfg: Config, s: State, text: string)
    ensures FillerKept(cfg, s, ProcessInput(cfg, s, text))
  {
    InputShapeOf(cfg, s, text);
  }

  lemma SilenceFillerKept(cfg: Config, s: State)
    ensures FillerKept(cfg, s, SilenceTick(cfg, s))
  {
    SilenceTickShape(cfg, s);
  }

  lemma OutcomeFillerKept(cfg: Config, s: State, r: Outcome)
    ensures FillerKept(cfg, s, OnLlmOutcome(cfg, s, r))
  {
    OutcomeShape(cfg, s, r);
  }

  lemma FillerKeptOnConnected(cfg: Config, s: State)
    ensures FillerKept(cfg, s, Step(cfg, s, Connected))
  {
  }

  lemma FillerKeptOnResult(cfg: Config, s: State, t: string)
    ensures FillerKept(cfg, s, Step(cfg, s, AsrResult(t)))
  {
  }

  lemma FillerKeptOnInterim(cfg: Config, s: State, t: string)
    ensures FillerKept(cfg, s, Step(cfg, s, AsrInterim(t)))
  {
  }

  lemma FillerKeptOnDebounce(cfg: Config, s: State)
    ensures FillerKept(cfg, s, Step(cfg, s, DebounceFired))
  {
    InputFillerKept(cfg, s.(timer := Idle), s.recognized);
  }

  lemma FillerKeptOnSilence(cfg: Config, s: State)
    ensures FillerKept(cfg, s, Step(cfg, s, SilenceTimerFired))
  {
    InputFillerKept(cfg, s.(timer := Idle), s.recognized);
    SilenceFillerKept(cfg, s.(timer := Idle));
  }

  lemma FillerKeptOnPlayback(cfg: Config, s: State)
    ensures FillerKept(cfg, s, Step(cfg, s, PlaybackFinished))
  {
    match s.after
    case None =>
    case Some(cb) =>
      match cb
      case GreetingPartDone =>
      case ResumeListening =>
      case FillerDone =>
      case FarewellDone =>
      case HangupOnFinish =>
  }

  /** `usedFiller` is never cleared, and it is set only by the step that speaks the filler. */
  lemma UsedFillerNeverReset(cfg: Config, s: State, e: Event)
    ensures var o := Step(cfg, s, e);
      (s.usedFiller ==> o.state.usedFiller)
      && (o.state.usedFiller && !s.usedFiller ==>
            cfg.texts.filler.Some? && o.actions == [Speak(cfg.texts.filler.value)])
  {
    match e
    case Connected => FillerKeptOnConnected(cfg, s);
    case AsrResult(t) => FillerKeptOnResult(cfg, s, t);
    case AsrInterim(t) => FillerKeptOnInterim(cfg, s, t);
    case DebounceFired => FillerKeptOnDebounce(cfg, s);
    case SilenceTimerFired => FillerKeptOnSilence(cfg, s);
    case PlaybackFinished => FillerKeptOnPlayback(cfg, s);
    case LlmOutcome(r) => OutcomeFillerKept(cfg, s, r);
    case HangupTimerFired =>
  }

  /** The filler is spoken only before the first backend request. */
  lemma FillerBeforeFirstRequest(cfg: Config, s: State, e: Event)
    requires Inv(cfg, s)
    ensures var o := Step(cfg, s, e);
      o.state.usedFiller && !s.usedFiller ==> s.requested == 0
  {
    UsedFillerNeverReset(cfg, s, e);
  }

  /** The number of steps of a run that speak the filler (the steps that set `usedFiller`). */
  function FillerSteps(cfg: Config, s: State, es: seq<Event>): (n: nat)
    decreases |es|
  {
    if |es| == 0 then 0
    else
      var s1 := Step(cfg, s, es[0]).state;
      (if s1.usedFiller && !s.usedFiller then 1 else 0) + FillerSteps(cfg, s1, es[1..])
  }

  /** Over any run, the filler is spoken at most once, and never once it has been used. */
  lemma {:induction false} FillerAtMostOnce(cfg: Config, s: State, es: seq<Event>)
    ensures FillerSteps(cfg, s, es) <= (if s.usedFiller then 0 else 1)
    decreases |es|
  {
    if |es| > 0 {
      UsedFillerNeverReset(cfg, s, es[0]);
      FillerAtMostOnce(cfg, Step(cfg, s, es[0]).state, es[1..]);
    }
  }

  // ---------------------------------------------------------------------
  // Silence
  // ---------------------------------------------------------------------

  /** With no pending text, the silence timer runs the silent-timeout handling. */
  lemma SilentTimeout(cfg: Config, s: State)
    requires s.timer == Silence && s.recognized == ""
    ensures Step(cfg, s, SilenceTimerFired) == SilenceTick(cfg, s.(timer := Idle))
  {
  }

  /**
    With no pending text, the silence timer counts a timeout (not in
    smart-bot): the first two re-prompt with the first and the second prompt,
    and the third ends the call with the connection-lost farewell.
   */
  lemma SilenceTimeoutCounted(cfg: Config, s: State)
    requires CountsSilence(cfg.scenario) && !s.finished && s.timer == Silence && s.recognized == ""
    ensures var o := Step(cfg, s, SilenceTimerFired);
      var c := s.silenceCount + 1;
      (c < 3 ==> !o.state.finished && o.state.silenceCount == c && o.state.after == Some(ResumeListening)
                 && o.actions == [Speak(if c == 2 then cfg.texts.prompts.second else cfg.texts.prompts.first)])
      && (c >= 3 ==> EndsWith(s.(silenceCount := c), o, cfg.texts.silenceEnd))
  {
    var s0 := s.(timer := Idle);
    SilentTimeout(cfg, s);
    if s.silenceCount + 1 >= 3 {
      SilenceEndsCall(cfg, s0);
    } else {
      SilencePrompt(cfg, s0);
    }
  }

  lemma SilenceEndsCall(cfg: Config, s: State)
    requires CountsSilence(cfg.scenario) && !s.finished && s.silenceCount + 1 >= 3
    ensures EndsWith(s.(silenceCount := s.silenceCount + 1), SilenceTick(cfg, s), cfg.texts.silenceEnd)
  {
    SilenceEnd(cfg, s);
    EndTakesEffectOnce(cfg, s.(silenceCount := s.silenceCount + 1), cfg.texts.silenceEnd, cfg.texts.silenceEnd);
  }

  /** Smart-bot has no silence cap: a silent timeout says its prompt, counts nothing, and re-arms the timer once the prompt is over. */
  lemma SmartBotSilenceNeverEnds(cfg: Config, s: State)
    requires cfg.scenario == SmartBot && !s.finished && s.timer == Silence && s.recognized == ""
    ensures var o := Step(cfg, s, SilenceTimerFired);
      o.actions == [Speak(cfg.texts.prompts.first)] && !o.state.finished && o.state.silenceCount == s.silenceCount
      && OnPlaybackFinished(cfg, o.state) == Out(o.state.(speaking := false, after := None, timer := Silence), [])
  {
    SilentTimeout(cfg, s);
    SilencePrompt(cfg, s.(timer := Idle));
  }

  /** A timeout with pending text processes that text instead of counting a silence. */
  lemma PendingTextBeatsSilence(cfg: Config, s: State)
    requires !s.finished && s.timer == Silence && s.recognized != ""
    ensures var o := Step(cfg, s, SilenceTimerFired);
      o == ProcessInput(cfg, s.(timer := Idle), s.recognized)
      && o.state.turn == s.turn + 1 && o.state.silenceCount == s.silenceCount
  {
    InputShapeOf(cfg, s.(timer := Idle), s.recognized);
  }

  /** The end of a re-prompt re-arms the silence timer and changes nothing else the dialog counts. */
  lemma PromptOver(cfg: Config, s: State)
    requires !s.finished && s.after == Some(ResumeListening)
    ensures var o := OnPlaybackFinished(cfg, s);
      o.actions == [] && o.state.timer == Silence && !o.state.speaking && o.state.after == None
      && o.state.finished == s.finished && o.state.asrAttached == s.asrAttached && o.state.recognized == s.recognized
      && o.state.silenceCount == s.silenceCount && o.state.turn == s.turn && o.state.history == s.history
      && o.state.requested == s.requested && o.state.usedFiller == s.usedFiller
  {
  }

  lemma RunTwo(cfg: Config, s: State, e: Event, es: seq<Event>)
    ensures var o1 := Step(cfg, s, e);
      var o2 := Run(cfg, o1.state, es);
      Run(cfg, s, [e] + es) == Out(o2.state, o1.actions + o2.actions)
  {
    assert ([e] + es)[0] == e && ([e] + es)[1..] == es;
  }

  lemma {:induction false} RunAppend(cfg: Config, s: State, a: seq<Event>, b: seq<Event>)
    ensures var o1 := Run(cfg, s, a);
      var o2 := Run(cfg, o1.state, b);
      Run(cfg, s, a + b) == Out(o2.state, o1.actions + o2.actions)
    decreases |a|
  {
    if |a| == 0 {
      assert a + b == b;
    } else {
      var e, rest := a[0], a[1..];
      assert a == [e] + rest;
      assert a + b == [e] + (rest + b);
      var o := Step(cfg, s, e);
      RunTwo(cfg, s, e, rest + b);
      RunTwo(cfg, s, e, rest);
      RunAppend(cfg, o.state, rest, b);
      var r1 := Run(cfg, o.state, rest);
      var r2 := Run(cfg, r1.state, b);
      AppendAssoc(o.actions, r1.actions, r2.actions);
    }
  }

  /**
    A silent timeout below the cap, with its prompt played to the end: the
    prompt for this count is said, the count goes up by one and the call is
    back to waiting for speech.
   */
  lemma PromptRound(cfg: Config, s: State)
    requires CountsSilence(cfg.scenario) && !s.finished && s.asrAttached
    requires s.timer == Silence && s.recognized == "" && s.silenceCount < 2
    ensures var o := Run(cfg, s, [SilenceTimerFired, PlaybackFinished]);
      var p := cfg.texts.prompts;
      o.actions == [Speak(if s.silenceCount == 1 then p.second else p.first)]
      && !o.state.finished && o.state.asrAttached && o.state.timer == Silence && o.state.recognized == ""
      && o.state.silenceCount == s.silenceCount + 1
  {
    SilenceTimeoutCounted(cfg, s);
    var s1 := Step(cfg, s, SilenceTimerFired).state;
    PromptOver(cfg, s1);
    RunTwo(cfg, s1, PlaybackFinished, []);
    RunTwo(cfg, s, SilenceTimerFired, [PlaybackFinished]);
  }

  /**
    Three silent timeouts in a row, each prompt played to its end, say the
    first prompt, the second prompt, and then detach the recogniser and say
    the connection-lost farewell; the call is then finished.
   */
  lemma ThreeSilencesEnd(cfg: Config, s: State)
    requires CountsSilence(cfg.scenario) && !s.finished && s.asrAttached
    requires s.timer == Silence && s.recognized == "" && s.silenceCount == 0
    ensures var o := Run(cfg, s, [SilenceTimerFired, PlaybackFinished, SilenceTimerFired, PlaybackFinished, SilenceTimerFired]);
      var p := cfg.texts.prompts;
      o.actions == [Speak(p.first), Speak(p.second), DetachAsr, Speak(cfg.texts.silenceEnd)]
      && o.state.finished
  {
    var round := [SilenceTimerFired, PlaybackFinished];
    PromptRound(cfg, s);
    var r1 := Run(cfg, s, round);
    PromptRound(cfg, r1.state);
    var r2 := Run(cfg, r1.state, round);
    SilenceTimeoutCounted(cfg, r2.state);
    var o5 := Step(cfg, r2.state, SilenceTimerFired);
    RunTwo(cfg, r2.state, SilenceTimerFired, []);
    RunAppend(cfg, r1.state, round, [SilenceTimerFired]);
    RunAppend(cfg, s, round, round + [SilenceTimerFired]);
    assert round + (round + [SilenceTimerFired])
        == [SilenceTimerFired, PlaybackFinished, SilenceTimerFired, PlaybackFinished, SilenceTimerFired];
    JoinTwoThenRest(r1.actions[0], r2.actions[0], o5.actions);
  }

  lemma JoinTwoThenRest<A>(x: A, y: A, rest: seq<A>)
    ensures [x] + ([y] + (rest + [])) == [x, y] + rest
  {
  }

  // ---------------------------------------------------------------------
  // When the caller is heard
  // ---------------------------------------------------------------------

  /**
    A non-blank final result that gets through the gate stops the bot if it
    is speaking, becomes the pending text, restarts the end-of-speech timer
    and resets the silence count (smart-bot keeps none).
   */
  lemma ResultResetsSilence(cfg: Config, s: State, t: string)
    requires s.connected && !s.finished && !AllSpace(t) && Listening(cfg, s)
    ensures var o := Step(cfg, s, AsrResult(t));
      o.state.recognized == t && o.state.timer == Debounce && !o.state.speaking
      && (CountsSilence(cfg.scenario) ==> o.state.silenceCount == 0)
      && o.actions == (if s.speaking then [StopPlayback] else [])
  {
  }

  /** A non-blank interim result that gets through the gate stops the bot if it is speaking and only cancels the timer. */
  lemma InterimCancelsTimer(cfg: Config, s: State, t: string)
    requires s.connected && !s.finished && !AllSpace(t) && Listening(cfg, s)
    ensures var o := Step(cfg, s, AsrInterim(t));
      o.state.timer == Idle && !o.state.speaking && o.state.recognized == s.recognized
      && o.actions == (if s.speaking then [StopPlayback] else [])
  {
  }

  /** Blank results, and results once the call is finished or while the gate is closed, are ignored. */
  lemma ResultsIgnored(cfg: Config, s: State, t: string)
    requires s.finished || AllSpace(t) || !Listening(cfg, s)
    ensures Step(cfg, s, AsrResult(t)) == Out(s, [])
    ensures Step(cfg, s, AsrInterim(t)) == Out(s, [])
  {
  }

  /** Elevenlabs and assistant cannot be interrupted during the greeting: results are ignored until its last part is over. */
  lemma GreetingNotInterruptible(cfg: Config, s: State, t: string)
    requires GatesGreeting(cfg.scenario) && Inv(cfg, s) && s.greetingIndex < |cfg.greetingParts|
    ensures Step(cfg, s, AsrResult(t)) == Out(s, [])
    ensures Step(cfg, s, AsrInterim(t)) == Out(s, [])
  {
  }

  /** Inbound does not hear the caller while it speaks. */
  lemma InboundDeafWhileSpeaking(cfg: Config, s: State, t: string)
    requires cfg.scenario == Inbound && Inv(cfg, s) && s.speaking
    ensures Step(cfg, s, AsrResult(t)) == Out(s, [])
    ensures Step(cfg, s, AsrInterim(t)) == Out(s, [])
  {
  }

  // ---------------------------------------------------------------------
  // After the end
  // ---------------------------------------------------------------------

  /**
    A finished call does nothing more: recognition, timers and a repeated
    connect change nothing; a backend outcome is only counted as answered;
    the end of a playback can only hang up.
   */
  lemma FinishedIsQuiet(cfg: Config, s: State, e: Event)
    requires Inv(cfg, s) && s.finished
    ensures var o := Step(cfg, s, e);
      ((e.Connected? || e.AsrResult? || e.AsrInterim? || e.DebounceFired? || e.SilenceTimerFired?) ==> o == Out(s, []))
      && (e.LlmOutcome? ==> o.actions == [] && (o.state == s || o.state == CountAnswer(s)))
      && (e.PlaybackFinished? ==> o.actions == [] || o.actions == [Hangup])
  {
    match e
    case LlmOutcome(r) =>
      OutcomeShape(cfg, s, r);
    case _ =>
  }
}
