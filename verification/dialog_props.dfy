/**
  Properties of the dialog controller: an invariant of every reachable state,
  and what each kind of host callback does, scenario by scenario.
 */
module DialogProps {
  import opened Text
  import opened Phrases
  import opened Dialog

  // ---------------------------------------------------------------------
  // The reachable-state invariant
  // ---------------------------------------------------------------------

  /** The scenarios that close the listening gate for the greeting only. */
  predicate GatesGreeting(sc: Scenario) {
    sc == Elevenlabs || sc == Assistant
  }

  /** The scenarios whose farewell hangs up by the fallback timer. */
  predicate HangsUpByTimer(sc: Scenario) {
    sc == Elevenlabs || sc == Inbound
  }

  /** Everything the invariant says except the bound on the silence counter. */
  predicate InvRest(cfg: Config, s: State) {
    var sc := cfg.scenario;
    (!s.connected ==> !s.finished && !s.speaking && !s.canListen && s.timer == Idle && s.after == None
                      && s.requested == 0 && s.greetingIndex == 0)
    && s.asrAttached == (s.connected && !s.finished)
    && s.answered <= s.requested
    && s.greetingIndex <= |cfg.greetingParts|
    && (s.after == Some(GreetingPartDone) ==> s.greetingIndex < |cfg.greetingParts|)
    && (s.finished ==> s.timer == Idle)
    && (!CountsSilence(sc) ==> s.silenceCount == 0)
    && (sc == Inbound && s.speaking ==> !s.canListen)
    && (cfg.texts.filler.Some? && !s.usedFiller ==> s.requested == 0)
    && (s.after == Some(FillerDone) ==> cfg.texts.filler.Some? && s.usedFiller)
    && (GatesGreeting(sc) && s.canListen ==> s.greetingIndex == |cfg.greetingParts|)
    && (s.timer == Debounce ==> !AllSpace(s.recognized))
    && (s.after == Some(FarewellDone) ==> s.finished && HangsUpByTimer(sc))
    && (s.after == Some(HangupOnFinish) ==> s.finished && !HangsUpByTimer(sc))
    && (s.hangupTimer ==> s.finished && HangsUpByTimer(sc))
  }

  /**
    What holds in every reachable state: the lifecycle flags agree (a finished
    call has no timer and no recogniser), at most as many outcomes as requests,
    the filler comes before any request, inbound never listens while it speaks,
    the greeting-gated scenarios listen only after the last greeting part, and
    a call that counts silences is below three while it runs.
   */
  predicate Inv(cfg: Config, s: State) {
    InvRest(cfg, s) && (CountsSilence(cfg.scenario) && !s.finished ==> s.silenceCount < 3)
  }

  lemma InitInv(cfg: Config)
    ensures Inv(cfg, Init)
  {
  }

  lemma OnConnectedInv(cfg: Config, s: State)
    requires Inv(cfg, s)
    ensures Inv(cfg, OnConnected(cfg, s).state)
  {
    match cfg.scenario
    case Elevenlabs =>
    case Inbound =>
    case Assistant =>
    case SmartBot =>
  }

  lemma OnResultInv(cfg: Config, s: State, t: string)
    requires Inv(cfg, s)
    ensures Inv(cfg, OnResult(cfg, s, t).state)
  {
    match cfg.scenario
    case Elevenlabs =>
    case Inbound =>
    case Assistant =>
    case SmartBot =>
  }

  lemma OnInterimInv(cfg: Config, s: State, t: string)
    requires Inv(cfg, s)
    ensures Inv(cfg, OnInterim(cfg, s, t).state)
  {
    match cfg.scenario
    case Elevenlabs =>
    case Inbound =>
    case Assistant =>
    case SmartBot =>
  }

  lemma EndInv(cfg: Config, s: State, msg: string)
    requires InvRest(cfg, s) && s.connected
    ensures Inv(cfg, End(cfg, s, msg).state)
  {
    match cfg.scenario
    case Elevenlabs =>
    case Inbound =>
    case Assistant =>
    case SmartBot =>
  }

  lemma AskBackendInv(cfg: Config, s: State, text: string)
    requires Inv(cfg, s) && s.connected && !s.finished && s.timer == Idle
    ensures Inv(cfg, AskBackend(cfg, s, text).state)
  {
    match cfg.scenario
    case Elevenlabs =>
    case Inbound =>
    case Assistant =>
    case SmartBot =>
  }

  lemma ProcessInputInv(cfg: Config, s: State, text: string)
    requires Inv(cfg, s) && s.connected && s.timer != Debounce
    ensures Inv(cfg, ProcessInput(cfg, s, text).state)
  {
    if !s.finished {
      var s1 := BeginTurn(cfg, s, text);
      assert Inv(cfg, s1) && s1.connected && !s1.finished && s1.timer == Idle;
      match Screen(cfg, LowerStr(text), s1.turn)
      case Some(msg) => EndInv(cfg, s1, msg);
      case None => AskBackendInv(cfg, s1, text);
    }
  }

  lemma HandleReplyInv(cfg: Config, s: State, text: string)
    requires Inv(cfg, s) && s.connected
    ensures Inv(cfg, HandleReply(cfg, s, text).state)
  {
    if !s.finished {
      var reply := Sanitise(cfg.scenario, text);
      var s1 := RecordReply(cfg, s, reply);
      assert Inv(cfg, s1) && s1.connected && !s1.finished;
      if IsEndReply(cfg.scenario, reply) {
        EndInv(cfg, s1, reply);
      } else {
        ResumeSpeakInv(cfg, s1, reply);
      }
    }
  }

  lemma ResumeSpeakInv(cfg: Config, s: State, text: string)
    requires Inv(cfg, s) && s.connected && !s.finished
    ensures Inv(cfg, SpeakThen(cfg, s, text, ResumeListening).state)
  {
    match cfg.scenario
    case Elevenlabs =>
    case Inbound =>
    case Assistant =>
    case SmartBot =>
  }

  lemma SilencePromptInv(cfg: Config, s: State)
    requires Inv(cfg, s) && s.connected && !s.finished && s.timer == Idle
    requires CountsSilence(cfg.scenario) ==> s.silenceCount + 1 < 3
    ensures Inv(cfg, SilenceTick(cfg, s).state)
  {
    match cfg.scenario
    case Elevenlabs =>
    case Inbound =>
    case Assistant =>
    case SmartBot =>
  }

  lemma SilenceEndInv(cfg: Config, s: State)
    requires Inv(cfg, s) && s.connected && !s.finished && s.timer == Idle
    requires CountsSilence(cfg.scenario) && s.silenceCount + 1 >= 3
    ensures Inv(cfg, SilenceTick(cfg, s).state)
  {
    match cfg.scenario
    case Elevenlabs =>
    case Inbound =>
    case Assistant =>
  }

  lemma SilenceTickInv(cfg: Config, s: State)
    requires Inv(cfg, s) && s.connected && !s.finished && s.timer == Idle
    ensures Inv(cfg, SilenceTick(cfg, s).state)
  {
    if CountsSilence(cfg.scenario) && s.silenceCount + 1 >= 3 {
      SilenceEndInv(cfg, s);
    } else {
      SilencePromptInv(cfg, s);
    }
  }

  lemma RunCallbackInv(cfg: Config, s: State, cb: After)
    requires Inv(cfg, s) && s.connected && !s.finished && !s.speaking && s.after == None
    requires cb == GreetingPartDone ==> s.greetingIndex < |cfg.greetingParts|
    requires cb == FillerDone ==> cfg.texts.filler.Some? && s.usedFiller
    requires cb != FarewellDone && cb != HangupOnFinish
    ensures Inv(cfg, RunCallback(cfg, s, cb).state)
  {
    match cfg.scenario
    case Elevenlabs =>
    case Inbound =>
    case Assistant =>
    case SmartBot =>
  }

  lemma OnPlaybackFinishedInv(cfg: Config, s: State)
    requires Inv(cfg, s)
    ensures Inv(cfg, OnPlaybackFinished(cfg, s).state)
  {
    match s.after
    case None =>
    case Some(cb) =>
      if cb != HangupOnFinish {
        var gate := if cfg.scenario == Inbound then true else s.canListen;
        var s1 := s.(speaking := false, canListen := gate, after := None);
        assert Inv(cfg, s1);
        if !s.finished {
          RunCallbackInv(cfg, s1, cb);
          assert OnPlaybackFinished(cfg, s) == RunCallback(cfg, s1, cb);
        }
      }
  }

  /** An outcome that a request is waiting for is handled as a reply: the backend's text, or the fallback for the failure. */
  lemma AnsweredOutcome(cfg: Config, s: State, r: Outcome)
    requires s.answered < s.requested
    ensures OnLlmOutcome(cfg, s, r) == HandleReply(cfg, CountAnswer(s), OutcomeText(cfg, r))
  {
  }

  lemma AnsweredInv(cfg: Config, s: State, r: Outcome)
    requires Inv(cfg, s) && s.answered < s.requested
    ensures Inv(cfg, OnLlmOutcome(cfg, s, r).state)
  {
    HandleReplyInv(cfg, CountAnswer(s), OutcomeText(cfg, r));
    AnsweredOutcome(cfg, s, r);
  }

  /** A backend outcome that no request is waiting for changes nothing. */
  lemma UnrequestedOutcomeIgnored(cfg: Config, s: State, r: Outcome)
    requires s.answered >= s.requested
    ensures OnLlmOutcome(cfg, s, r) == Out(s, [])
  {
  }

  lemma OnLlmOutcomeInv(cfg: Config, s: State, r: Outcome)
    requires Inv(cfg, s)
    ensures Inv(cfg, OnLlmOutcome(cfg, s, r).state)
  {
    if s.answered < s.requested {
      AnsweredInv(cfg, s, r);
    } else {
      UnrequestedOutcomeIgnored(cfg, s, r);
    }
  }

  /** Every host callback keeps the invariant. */
  lemma StepInv(cfg: Config, s: State, e: Event)
    requires Inv(cfg, s)
    ensures Inv(cfg, Step(cfg, s, e).state)
  {
    match e
    case Connected =>
      OnConnectedInv(cfg, s);
    case AsrResult(t) =>
      OnResultInv(cfg, s, t);
    case AsrInterim(t) =>
      OnInterimInv(cfg, s, t);
    case DebounceFired =>
      if s.timer == Debounce {
        var s1 := s.(timer := Idle);
        ProcessInputInv(cfg, s1, s.recognized);
      }
    case SilenceTimerFired =>
      if s.timer == Silence {
        var s1 := s.(timer := Idle);
        if s.recognized != "" {
          ProcessInputInv(cfg, s1, s.recognized);
        } else {
          SilenceTickInv(cfg, s1);
        }
      }
    case PlaybackFinished =>
      OnPlaybackFinishedInv(cfg, s);
    case LlmOutcome(r) =>
      OnLlmOutcomeInv(cfg, s, r);
    case HangupTimerFired =>
  }

  lemma {:induction false} RunInv(cfg: Config, s: State, es: seq<Event>)
    requires Inv(cfg, s)
    ensures Inv(cfg, Run(cfg, s, es).state)
    decreases |es|
  {
    if |es| > 0 {
      StepInv(cfg, s, es[0]);
      RunInv(cfg, Step(cfg, s, es[0]).state, es[1..]);
    }
  }

  /** Every state a call can reach satisfies the invariant. */
  lemma ReachableInv(cfg: Config, es: seq<Event>)
    ensures Inv(cfg, Run(cfg, Init, es).state)
  {
    InitInv(cfg);
    RunInv(cfg, Init, es);
  }
}
