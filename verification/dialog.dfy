/**
  The per-call dialog controller of the four conversational scenarios
  (elevenlabs, inbound, assistant and smart-bot).

  Each scenario keeps a handful of module-level variables that the host's
  callbacks change one at a time. Here they form one immutable `State`, and
  every callback is an `Event` handled by the pure function `Step`, which
  returns the next state and the host calls it makes (`Action`s). Timers and
  playback completions are events, so no wall-clock time is modelled. The
  scenarios share most of their code and differ in the places named by the
  per-scenario functions below: turn cap, silence handling, filler, screening of
  the caller's words, reply sanitiser, farewell test and the way the call ends.
 */
module Dialog {
  import opened Text
  import opened Phrases
  import opened Sanitize
  import opened TwoSentence
  import opened Greeting

  // ---------------------------------------------------------------------
  // Data model
  // ---------------------------------------------------------------------

  datatype Option<T> = None | Some(value: T)

  datatype Scenario = Elevenlabs | Inbound | Assistant | SmartBot

  datatype Role = SystemRole | UserRole | AssistantRole

  /** One message of the conversation history, and of a backend request. */
  datatype Entry = Entry(role: Role, text: string)

  /** One record of the inbound scenario's conversation log (timestamps are not modelled). */
  datatype LogEntry = CallStarted | Said(speaker: Role, text: string)

  /** Three texts, in order. */
  datatype Three = Three(first: string, second: string, third: string)
  {
    function At(i: nat): (t: string)
      requires i < 3
    {
      if i == 0 then first else if i == 1 then second else third
    }
  }

  /**
    The fixed texts a scenario speaks. `prompts` are the silence re-prompts
    (smart-bot repeats its first one), `fallbacks` the replies used when a
    backend request ends with no choices, an unparsable body or a network error.
   */
  datatype Texts = Texts(
    prompts: Three,
    silenceEnd: string,      // the farewell after the third silent timeout
    filler: Option<string>,  // spoken once before the first backend request
    fallbacks: Three,
    confirm: string,         // the caller named a time (elevenlabs, assistant)
    goodbye: string,         // the caller said goodbye (inbound)
    cap: string)             // the turn cap was passed

  /** What a call is configured with: the system prompt, the greeting sent to the backend, the greeting as spoken, and the scenario's texts. */
  datatype Config = Config(scenario: Scenario, systemPrompt: string, greeting: string, greetingParts: seq<string>, texts: Texts)

  /** The one `silenceTimeout` slot, shared by the end-of-speech timer and the silence timer. */
  datatype Timer = Idle | Debounce | Silence

  /** The callback waiting for the end of the current playback. */
  datatype After =
    | GreetingPartDone   // play the next greeting part, or start listening
    | ResumeListening    // start the silence timer
    | FillerDone         // send the backend request
    | FarewellDone       // hang up after the farewell (guarded by `!isFinished`)
    | HangupOnFinish     // hang up (an unguarded listener)

  /** The four ways a backend request can come back. */
  datatype Outcome = Reply(text: string) | NoChoices | ParseError | NetworkError

  datatype Event =
    | Connected
    | AsrResult(text: string)
    | AsrInterim(text: string)
    | DebounceFired
    | SilenceTimerFired
    | PlaybackFinished
    | LlmOutcome(outcome: Outcome)
    | HangupTimerFired

  /**
    What a callback asks of the host. Starting the recogniser (`createASR`,
    `sendMediaTo`) is not an action: it shows only in the state's recogniser
    flag. Detaching it is an action, because its order relative to speech matters.
   */
  datatype Action = Speak(text: string) | StopPlayback | RequestLlm(messages: seq<Entry>) | DetachAsr | Hangup

  datatype State = State(
    connected: bool,         // the call is connected and the recogniser exists
    asrAttached: bool,       // the call's audio goes to the recogniser
    greetingIndex: nat,      // `currentPhraseIndex`
    turn: nat,               // `currentTurn`
    silenceCount: nat,
    finished: bool,          // `isFinished`
    speaking: bool,          // `isSpeaking`
    canListen: bool,
    usedFiller: bool,
    recognized: string,      // `recognizedText`
    history: seq<Entry>,     // `conversationHistory`
    log: seq<LogEntry>,      // `conversationLog` (inbound)
    timer: Timer,
    after: Option<After>,
    hangupTimer: bool,       // the 10 s fallback hang-up timer is armed
    requested: nat,          // backend requests sent
    answered: nat)           // backend outcomes received

  datatype Out = Out(state: State, actions: seq<Action>)

  /** The state before the call connects. */
  const Init: State := State(false, false, 0, 0, 0, false, false, false, false, "", [], [], Idle, None, false, 0, 0)

  // ---------------------------------------------------------------------
  // Per-scenario constants
  // ---------------------------------------------------------------------

  function MaxTurns(sc: Scenario): (n: nat)
  {
    match sc
    case Elevenlabs => 8
    case Inbound => 10
    case Assistant => 8
    case SmartBot => 10
  }

  /** Smart-bot keeps no silence counter; the other three end the call after three silent timeouts. */
  predicate CountsSilence(sc: Scenario) {
    sc != SmartBot
  }

  /** The replies spoken when a backend request ends with no choices, an unparsable body or a network error. */
  function FailureReplies(sc: Scenario): (f: Three)
  {
    match sc
    case Elevenlabs => Three("Когда вам удобно созвониться?", "Когда удобно будет?", "Так когда лучше?")
    case Inbound => Three("Поняла вас. Передам Мите.", "Хорошо, записала. Что-то ещё?", "Поняла. Митя свяжется с вами.")
    case Assistant => Three("Когда вам удобно созвониться?", "Когда удобно будет?", "Так когда лучше?")
    case SmartBot => Three("Извините, ошибка.", "Ошибка обработки.", "Проблема с сетью.")
  }

  /** The texts of each scenario. */
  function ScenarioTexts(sc: Scenario): (ts: Texts)
  {
    match sc
    case Elevenlabs =>
      Texts(Three("Алло?", "Вы меня слышите?", "Алло, вы на связи?"),
            "Связь прервалась. Перезвоню позже. Всего доброго!",
            Some("Секундочку!"),
            FailureReplies(sc),
            "Супер, записала! Митя свяжется с вами. Спасибо, до свидания!",
            "",
            "Не буду больше отвлекать. Митя сам свяжется. Всего доброго!")
    case Inbound =>
      Texts(Three("Алло, слушаю!", "Вы на связи?", "Алло, вы тут?"),
            "Не слышу вас. Перезвоните, пожалуйста. До свидания!",
            None,
            FailureReplies(sc),
            "",
            "До свидания! Передам Мите.",
            "Хорошо, я всё записала. Митя свяжется с вами. До свидания!")
    case Assistant =>
      Texts(Three("Алло?", "Вы меня слышите?", "Алло, вы на связи?"),
            "Связь прервалась. Перезвоню позже. До свидания!",
            Some("Секу+нду."),
            FailureReplies(sc),
            "Отлично, записал. Митя свяжется с вами. Спасибо! До свидания!",
            "",
            "Не буду больше отвлекать. Митя сам свяжется. Всего доброго!")
    case SmartBot =>
      Texts(Three("Вы здесь?", "Вы здесь?", "Вы здесь?"),
            "",
            None,
            FailureReplies(sc),
            "",
            "",
            "Спасибо! До свидания!")
  }

  /** The text a backend outcome hands to the reply handler: the reply, or the fallback for the failure. */
  function OutcomeText(cfg: Config, o: Outcome): (t: string)
  {
    match o
    case Reply(text) => text
    case NoChoices => cfg.texts.fallbacks.first
    case ParseError => cfg.texts.fallbacks.second
    case NetworkError => cfg.texts.fallbacks.third
  }

  /** `cleanResponse`: one sentence for the outbound assistants, two for inbound, none for smart-bot. */
  function Sanitise(sc: Scenario, text: string): (r: string)
  {
    match sc
    case Elevenlabs => CleanOneSentence(text)
    case Assistant => CleanOneSentence(text)
    case Inbound => CleanTwoSentences(text)
    case SmartBot => text
  }

  /** `isEndPhrase` (or smart-bot's inline test) applied to the cleaned reply. */
  function IsEndReply(sc: Scenario, reply: string): (b: bool)
  {
    match sc
    case Elevenlabs => IsEndPhraseOutbound(reply)
    case Assistant => IsEndPhraseOutbound(reply)
    case Inbound => IsEndPhraseInbound(reply)
    case SmartBot => IsEndPhraseSmartBot(reply)
  }

  /**
    The checks `processUserInput` makes, in order, before it asks the backend:
    the farewell to end with, or `None` to go on. `lower` is the lower-cased
    input and `turn` the already incremented turn number.
   */
  function Screen(cfg: Config, lower: string, turn: nat): (end: Option<string>)
  {
    var sc := cfg.scenario;
    var ts := cfg.texts;
    match sc
    case Elevenlabs =>
      if ShouldEndCall(lower) then Some(GetFarewell(Aisha, lower))
      else if HasFullDateTime(lower) then Some(ts.confirm)
      else if turn > MaxTurns(sc) then Some(ts.cap)
      else None
    case Assistant =>
      if ShouldEndCall(lower) then Some(GetFarewell(Filipp, lower))
      else if HasDayOrTime(lower) then Some(ts.confirm)
      else if turn > MaxTurns(sc) then Some(ts.cap)
      else None
    case Inbound =>
      if IsUserGoodbye(lower) then Some(ts.goodbye)
      else if turn > MaxTurns(sc) then Some(ts.cap)
      else None
    case SmartBot =>
      if turn > MaxTurns(sc) then Some(ts.cap) else None
  }

  // ---------------------------------------------------------------------
  // Configurations
  // ---------------------------------------------------------------------

  const ElevenlabsGreetingParts: seq<string> := [
    "Алло, здравствуйте!",
    "Это Аиша, ассистент Мити Амбарцумяна.",
    "Митя просил связаться с вами — хотел обсудить один вопрос.",
    "Когда вам удобно созвониться минут на десять?"
  ]

  const ElevenlabsGreeting: string :=
    "Алло, здравствуйте! Это Аиша, ассистент Мити Амбарцумяна. Митя просил связаться с вами — хотел обсудить один вопрос. Когда вам удобно созвониться минут на десять?"

  const InboundGreeting: string := "Алло! Это Аиша, ассистент Мити. Слушаю вас!"

  const AssistantGreeting: string :=
    "Алло, здравствуйте! Это Филипп, ассистент Мити Амбарцумяна. Митя просил связаться с вами — хотел обсудить один вопрос. Когда вам удобно созвониться минут на десять?"

  const SmartBotGreeting: string := "Здравствуйте! Чем могу помочь?"

  /**
    The configuration a call starts with. Only elevenlabs takes a greeting from
    the call data: a non-empty one replaces the default and is split into parts.
    The other scenarios speak their greeting in one piece.
   */
  function MakeConfig(sc: Scenario, systemPrompt: string, customGreeting: string): (cfg: Config)
  {
    var ts := ScenarioTexts(sc);
    match sc
    case Elevenlabs =>
      if customGreeting != "" then Config(sc, systemPrompt, customGreeting, GreetingParts(customGreeting), ts)
      else Config(sc, systemPrompt, ElevenlabsGreeting, ElevenlabsGreetingParts, ts)
    case Inbound => Config(sc, systemPrompt, InboundGreeting, [InboundGreeting], ts)
    case Assistant => Config(sc, systemPrompt, AssistantGreeting, [AssistantGreeting], ts)
    case SmartBot => Config(sc, systemPrompt, SmartBotGreeting, [SmartBotGreeting], ts)
  }

  /** The messages of a backend request: the system prompt, the greeting as the assistant's first words (not in smart-bot), then the history in order. */
  function Messages(cfg: Config, history: seq<Entry>): (ms: seq<Entry>)
  {
    [Entry(SystemRole, cfg.systemPrompt)]
    + (if cfg.scenario == SmartBot then [] else [Entry(AssistantRole, cfg.greeting)])
    + history
  }

  // ---------------------------------------------------------------------
  // Handlers
  // ---------------------------------------------------------------------

  /** `speak(text, callback)`: inbound's `speak` also closes the listening gate. */
  function SpeakThen(cfg: Config, s: State, text: string, cb: After): (o: Out)
  {
    var gate := if cfg.scenario == Inbound then false else s.canListen;
    Out(s.(speaking := true, canListen := gate, after := Some(cb)), [Speak(text)])
  }

  /** `callLLM` / `callYandexGPT`: one request carrying the current history. */
  function CallLlm(cfg: Config, s: State): (o: Out)
  {
    Out(s.(requested := s.requested + 1), [RequestLlm(Messages(cfg, s.history))])
  }

  /**
    `endConversation(msg)`: takes effect once. It marks the call finished, clears
    the timer and detaches the recogniser before the farewell is spoken.
    Elevenlabs and inbound speak through `speak` with a hang-up callback that
    its own `!isFinished` guard disables, so they hang up by the 10 s timer;
    inbound also logs the farewell. Assistant and smart-bot `say` the farewell
    and hang up when playback finishes.
   */
  function End(cfg: Config, s: State, msg: string): (o: Out)
  {
    if s.finished then Out(s, [])
    else
      var detach := if s.asrAttached then [DetachAsr] else [];
      var s1 := s.(finished := true, timer := Idle, asrAttached := false);
      match cfg.scenario
      case Elevenlabs =>
        var o := SpeakThen(cfg, s1.(hangupTimer := true), msg, FarewellDone);
        Out(o.state, detach + o.actions)
      case Inbound =>
        var o := SpeakThen(cfg, s1.(hangupTimer := true, log := s.log + [Said(AssistantRole, msg)]), msg, FarewellDone);
        Out(o.state, detach + o.actions)
      case Assistant =>
        Out(s1.(after := Some(HangupOnFinish)), detach + [Speak(msg)])
      case SmartBot =>
        Out(s1.(after := Some(HangupOnFinish)), detach + [Speak(msg)])
  }

  /** `playNextGreetingPart`: the next part, or, after the last one, open the gate and start the silence timer. */
  function PlayNextGreetingPart(cfg: Config, s: State): (o: Out)
  {
    if s.finished then Out(s, [])
    else if s.greetingIndex >= |cfg.greetingParts| then Out(s.(canListen := true, timer := Silence), [])
    else SpeakThen(cfg, s, cfg.greetingParts[s.greetingIndex], GreetingPartDone)
  }

  /** The bookkeeping `processUserInput` does before classifying: next turn, pending text and timer cleared, inbound logs the caller's words. */
  function BeginTurn(cfg: Config, s: State, text: string): (s1: State)
  {
    var log := if cfg.scenario == Inbound then s.log + [Said(UserRole, text)] else s.log;
    s.(turn := s.turn + 1, recognized := "", timer := Idle, log := log)
  }

  /** The fall-through of `processUserInput`: record the caller's words, then play the filler if it is still unused, or ask the backend. */
  function AskBackend(cfg: Config, s: State, text: string): (o: Out)
  {
    var s1 := s.(history := s.history + [Entry(UserRole, text)]);
    if cfg.texts.filler.Some? && !s1.usedFiller then SpeakThen(cfg, s1.(usedFiller := true), cfg.texts.filler.value, FillerDone)
    else CallLlm(cfg, s1)
  }

  /** End the call with the screening's farewell, or go on to the backend. */
  function AfterScreening(cfg: Config, s: State, text: string, verdict: Option<string>): (o: Out)
  {
    match verdict
    case Some(msg) => End(cfg, s, msg)
    case None => AskBackend(cfg, s, text)
  }

  /** `processUserInput(text)`. */
  function ProcessInput(cfg: Config, s: State, text: string): (o: Out)
  {
    if s.finished then Out(s, [])
    else
      var s1 := BeginTurn(cfg, s, text);
      AfterScreening(cfg, s1, text, Screen(cfg, LowerStr(text), s1.turn))
  }

  /** The reply is appended to the history as the assistant's (inbound also logs it). */
  function RecordReply(cfg: Config, s: State, reply: string): (s1: State)
  {
    var log := if cfg.scenario == Inbound then s.log + [Said(AssistantRole, reply)] else s.log;
    s.(history := s.history + [Entry(AssistantRole, reply)], log := log)
  }

  /** A recorded reply ends the call when it is a farewell, and is otherwise spoken before listening resumes. */
  function Answer(cfg: Config, s: State, reply: string, ends: bool): (o: Out)
  {
    if ends then End(cfg, s, reply) else SpeakThen(cfg, s, reply, ResumeListening)
  }

  /** `handleGPTResponse` / `handleResponse` / smart-bot's inline callback. */
  function HandleReply(cfg: Config, s: State, text: string): (o: Out)
  {
    if s.finished then Out(s, [])
    else
      var reply := Sanitise(cfg.scenario, text);
      Answer(cfg, RecordReply(cfg, s, reply), reply, IsEndReply(cfg.scenario, reply))
  }

  /** The silence timer fired with no pending text. */
  function SilenceTick(cfg: Config, s: State): (o: Out)
  {
    var sc := cfg.scenario;
    if !CountsSilence(sc) then SpeakThen(cfg, s, cfg.texts.prompts.first, ResumeListening)
    else
      var c := s.silenceCount + 1;
      var s1 := s.(silenceCount := c);
      if c >= 3 then End(cfg, s1, cfg.texts.silenceEnd)
      else SpeakThen(cfg, s1, cfg.texts.prompts.At(c - 1), ResumeListening)
  }

  /** A playback callback, run only while the call is not finished. */
  function RunCallback(cfg: Config, s: State, cb: After): (o: Out)
  {
    match cb
    case GreetingPartDone => PlayNextGreetingPart(cfg, s.(greetingIndex := s.greetingIndex + 1))
    case ResumeListening => Out(s.(timer := Silence), [])
    case FillerDone => CallLlm(cfg, s)
    case FarewellDone => Out(s.(hangupTimer := false), [Hangup])
    case HangupOnFinish => Out(s, [Hangup])
  }

  /** Whether recognition results reach the dialog: smart-bot always listens, the others only once `canListen` is set. */
  predicate Listening(cfg: Config, s: State) {
    cfg.scenario == SmartBot || s.canListen
  }

  /** The final-result handler: a non-empty result stops bot speech, becomes the pending text and (re)arms the end-of-speech timer. */
  function OnResult(cfg: Config, s: State, t: string): (o: Out)
  {
    if !s.connected || s.finished || AllSpace(t) || !Listening(cfg, s) then Out(s, [])
    else
      var count := if CountsSilence(cfg.scenario) then 0 else s.silenceCount;
      var s1 := s.(recognized := t, silenceCount := count, speaking := false, timer := Debounce);
      Out(s1, if s.speaking then [StopPlayback] else [])
  }

  /** The interim-result handler: a non-empty partial result stops bot speech and cancels the timer. */
  function OnInterim(cfg: Config, s: State, t: string): (o: Out)
  {
    if !s.connected || s.finished || AllSpace(t) || !Listening(cfg, s) then Out(s, [])
    else Out(s.(speaking := false, timer := Idle), if s.speaking then [StopPlayback] else [])
  }

  /**
    The end of a playback. The listener of a `speak` clears `isSpeaking`
    (inbound's also reopens the gate), is removed, and runs its callback unless
    the call is finished. Assistant's and smart-bot's farewell listener hangs up
    and stays registered.
   */
  function OnPlaybackFinished(cfg: Config, s: State): (o: Out)
  {
    match s.after
    case None => Out(s, [])
    case Some(cb) =>
      if cb == HangupOnFinish then Out(s, [Hangup])
      else
        var gate := if cfg.scenario == Inbound then true else s.canListen;
        var s1 := s.(speaking := false, canListen := gate, after := None);
        if s.finished then Out(s1, []) else RunCallback(cfg, s1, cb)
  }

  /** A backend outcome; one that no request is waiting for is ignored. */
  function OnLlmOutcome(cfg: Config, s: State, o: Outcome): (r: Out)
  {
    if s.answered >= s.requested then Out(s, [])
    else HandleReply(cfg, CountAnswer(s), OutcomeText(cfg, o))
  }

  /** One more request answered. */
  function CountAnswer(s: State): (s1: State)
  {
    s.(answered := s.answered + 1)
  }

  /** `onConnected`: create the recogniser, close the gate, and start the greeting (inbound also logs the start). */
  function OnConnected(cfg: Config, s: State): (o: Out)
  {
    if s.connected then Out(s, [])
    else
      var log := if cfg.scenario == Inbound then s.log + [CallStarted] else s.log;
      PlayNextGreetingPart(cfg, s.(connected := true, asrAttached := true, canListen := false, log := log))
  }

  /** One host callback. */
  function Step(cfg: Config, s: State, e: Event): (o: Out)
  {
    match e
    case Connected => OnConnected(cfg, s)
    case AsrResult(t) => OnResult(cfg, s, t)
    case AsrInterim(t) => OnInterim(cfg, s, t)
    case DebounceFired =>
      if s.timer != Debounce then Out(s, []) else ProcessInput(cfg, s.(timer := Idle), s.recognized)
    case SilenceTimerFired =>
      if s.timer != Silence then Out(s, [])
      else if s.recognized != "" then ProcessInput(cfg, s.(timer := Idle), s.recognized)
      else SilenceTick(cfg, s.(timer := Idle))
    case PlaybackFinished => OnPlaybackFinished(cfg, s)
    case LlmOutcome(r) => OnLlmOutcome(cfg, s, r)
    case HangupTimerFired =>
      if s.hangupTimer then Out(s.(hangupTimer := false), [Hangup]) else Out(s, [])
  }

  /** A sequence of host callbacks, with the calls they make in order. */
  function Run(cfg: Config, s: State, es: seq<Event>): (o: Out)
    decreases |es|
  {
    if |es| == 0 then Out(s, [])
    else
      var o1 := Step(cfg, s, es[0]);
      var o2 := Run(cfg, o1.state, es[1..]);
      Out(o2.state, o1.actions + o2.actions)
  }
}
