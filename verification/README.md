# voix call scenarios and dashboard gate, modelled in Dafny

This project models the decision logic of the voix telephony system. That system places and answers calls through Voximplant and has a small dashboard.

- **Text primitives** (module `Text`). JavaScript's `toLowerCase` is limited to ASCII and Cyrillic. `trim` strips whitespace, `indexOf`/`includes` search for substrings, and `.length` is measured in UTF-16 code units.
- **Keyword classifiers and farewells** (module `Phrases`). These are the fixed Russian phrase lists the scenarios search:
  - `hasDayInResponse`, `hasTimeInResponse` and `hasFullDateTime`;
  - `shouldEndCall` and `isUserGoodbye`;
  - the three `isEndPhrase` variants;
  - `getFarewell` for the female (Aisha) and male (Filipp) personas.
- **Reply sanitisers**:
  - the role-label stripping both of them start with (module `Sanitize`);
  - the one-sentence `cleanResponse` of the elevenlabs and assistant scenarios (module `Sanitize`);
  - the two-sentence `cleanResponse` of the inbound scenario (module `TwoSentence`).
- **The custom-greeting splitter** of the elevenlabs scenario (module `Greeting`).
- **The dialog controller** of the four conversational scenarios: elevenlabs, inbound, assistant and smart-bot (module `Dialog`).
  - It is one engine parametrised by a per-scenario `Config`. The config fixes the turn cap (8 or 10), whether silences are counted, the filler, the greeting gate, the screening order, the sanitiser, how the farewell hangs up, and the message layout sent to the language model.
  - The call's module-level variables form an immutable `State`. Every host callback is an `Event`: connected, final or interim recognition result, debounce timer, silence timer, playback finished, hang-up timer, or a language-model outcome (reply, no choices, parse error, network error).
  - `Step` returns the next state and the `Action`s emitted: speak, stop playback, request the model, detach the recogniser, hang up.
  - `DialogProps` proves an invariant of every reachable state. `DialogBehaviour` proves what each callback does, scenario by scenario.
- **The inbound IVR menu** (module `Ivr`):
  - DTMF and voice choices;
  - the invalid-input and no-input loops;
  - the information branch;
  - the speech-recognition test mode.

  Its call-level playback listeners are an explicit list.
- **The one-shot test call** (module `TestCall`): barge-in, the last recognised text winning, and `respond` taking effect once.
- **The dashboard** (module `Dashboard`): the cookie gate in `middleware.ts`, and the page/limit/skip/page-count arithmetic of `GET /api/calls`.

The model keeps the quirks of the code as written:

- The third silence prompt is unreachable.
- "через час" or "минут через" alone counts as a full date and time.
- The assistant scenario ends the call on a bare day word.
- The one-sentence sanitiser's fallback "Когда вам удобно?" is not a fixed point: it comes back as "Когда вам удобно."
- `isUserGoodbye` fires on any text containing "пока", including "я пока думаю".
- In the elevenlabs and inbound scenarios, the hang-up callback of the farewell is guarded by `!isFinished`. `endConversation` has just set that flag, so the callback never hangs up and only the 10-second fallback timer does. The code is followed here, not the intent of the callback passed to `speak`, which logs "Hangup after speech" (mitya-inbound.voxengine.js:405-411, mitya-elevenlabs.voxengine.js:501-505).

## Model

| member | source | states |
|---|---|---|
| Text.Lower | src/scenarios/mitya-elevenlabs.voxengine.js:282 | each Latin capital A–Z becomes the small letter at the same place in a–z, each Cyrillic capital А–Я the small letter at the same place in а–я, and Ё becomes ё; every other character is unchanged, and whitespace, sentence punctuation and line breaks keep their class |
| Text.LowerStr | src/scenarios/mitya-elevenlabs.voxengine.js:282 | lowercasing a text keeps its length and lowercases it character by character |
| Text.Trim | src/scenarios/mitya-elevenlabs.voxengine.js:150 | `trim` returns a contiguous piece of the text that neither starts nor ends with whitespace |
| Text.TrimDropsSpaces | src/scenarios/mitya-elevenlabs.voxengine.js:150 | everything `trim` removes, before and after the kept piece, is whitespace |
| Text.TrimEmptyIffAllSpace | src/scenarios/mitya-elevenlabs.voxengine.js:150 | a text trims to empty exactly when it is all whitespace, which is the blank-result guard of every recognition handler |
| Text.TrimIdempotent | src/scenarios/mitya-elevenlabs.voxengine.js:393 | trimming twice is trimming once |
| Text.TrimLeadingSpaces | src/scenarios/mitya-inbound.voxengine.js:319-325 | whitespace in front of a text does not change its trim |
| Text.IndexOf | src/scenarios/mitya-elevenlabs.voxengine.js:342 | `indexOf` is non-negative exactly when the pattern occurs, and then it is the first position where it occurs |
| Text.IndexFrom | src/scenarios/mitya-elevenlabs.voxengine.js:342 | the search from a position finds the first match at or after it, or -1 exactly when there is none |
| Text.ContainsAny | src/scenarios/mitya-elevenlabs.voxengine.js:341-343 | the loop over a pattern list returns true exactly when some pattern of the list occurs in the text |
| Phrases.HasFullDateTime | src/scenarios/mitya-elevenlabs.voxengine.js:335-379 | true exactly when a combined day-and-time phrase occurs, or some day token and some time token both occur |
| Phrases.HasDayOrTime | src/scenarios/mitya-assistant.voxengine.js:237-254 | the assistant's `hasTimeInResponse` is true exactly when some token of its one merged day-and-time list occurs |
| Phrases.ShouldEndCall | src/scenarios/mitya-elevenlabs.voxengine.js:396-407 | true exactly when one of the 13 end patterns occurs |
| Phrases.IsUserGoodbye | src/scenarios/mitya-inbound.voxengine.js:298-304 | true exactly when one of the 5 goodbye patterns occurs |
| Phrases.GetFarewell | src/scenarios/mitya-elevenlabs.voxengine.js:409-417 | the farewell is always one of three fixed texts; it is the apology exactly when a rude pattern occurs, and the plain goodbye exactly when none does and a goodbye pattern does |
| Phrases.IsEndPhraseOutbound | src/scenarios/mitya-elevenlabs.voxengine.js:419-424 | a reply ends the call exactly when its lowercase form contains "до свидания", "всего доброго" or "всего хорошего" |
| Phrases.IsEndPhraseInbound | src/scenarios/mitya-inbound.voxengine.js:306-311 | a reply ends the call exactly when its lowercase form contains "до свидания", "всего доброго" or "спасибо за звонок" |
| Phrases.IsEndPhraseSmartBot | src/scenarios/smart-bot.voxengine.js:174-176 | a reply ends the call exactly when its lowercase form contains "до свидания" or "всего доброго" |
| Phrases.InAnHourAloneIsFull | src/scenarios/mitya-elevenlabs.voxengine.js:364-379 | "через час" alone counts as a full date and time although it holds no day token |
| Phrases.MinutesLaterAloneIsFull | src/scenarios/mitya-elevenlabs.voxengine.js:364-379 | "минут через" alone counts as a full date and time although it holds no day token |
| Phrases.BareDayIsTimeForAssistant | src/scenarios/mitya-assistant.voxengine.js:237-254 | any text containing a day token satisfies the assistant's time test |
| Phrases.ApologyWinsOverGoodbye | src/scenarios/mitya-elevenlabs.voxengine.js:409-417 | a text with "не звоните", "отстаньте" or "отвалите" ends the call and gets the apology, even when it also says "до свидания" |
| Phrases.GoodbyeAnsweredInKind | src/scenarios/mitya-elevenlabs.voxengine.js:409-417 | a polite text containing "до свидания" ends the call and is answered with "До свидания!" |
| Phrases.PokaIsGoodbye | src/scenarios/mitya-inbound.voxengine.js:298-304 | any text containing "пока" is a goodbye |
| Phrases.StillThinkingIsGoodbye | src/scenarios/mitya-inbound.voxengine.js:298-304 | "я пока думаю" ("I'm still thinking") is taken as a goodbye |
| Sanitize.RemoveLabel | src/scenarios/mitya-elevenlabs.voxengine.js:382-385 | one `replace(/Label:.*$/gim, '')`; RemoveLabelLines, RemoveLabelLabelFree, RemoveLabelKeepsLabelFree and RemoveLabelIdentity state what it does |
| Sanitize.StripLabels | src/scenarios/mitya-elevenlabs.voxengine.js:382-385 | the four label replacements in the source's order; StripLabelsRoleLabelFree and StripLabelsIdentity state what they do |
| Sanitize.RemoveLabelLines | src/scenarios/mitya-elevenlabs.voxengine.js:382-385 | a multi-line label replacement works line by line: the result over a line break is the result on the line, the break, and the result on the rest |
| Sanitize.RemoveLabelLabelFree | src/scenarios/mitya-elevenlabs.voxengine.js:382-385 | after one label's replacement, that label (in any letter case) occurs nowhere |
| Sanitize.RemoveLabelKeepsLabelFree | src/scenarios/mitya-elevenlabs.voxengine.js:382-385 | a later replacement does not bring back a label an earlier one removed |
| Sanitize.RemoveLabelIdentity | src/scenarios/mitya-elevenlabs.voxengine.js:382-385 | a text without the label is left unchanged |
| Sanitize.StripLabelsRoleLabelFree | src/scenarios/mitya-elevenlabs.voxengine.js:382-385 | after the four replacements none of the four role labels occurs, in any letter case |
| Sanitize.StripLabelsIdentity | src/scenarios/mitya-elevenlabs.voxengine.js:382-385 | a text without role labels passes the four replacements unchanged |
| Sanitize.CleanOneSentenceRoleLabelFree | src/scenarios/mitya-elevenlabs.voxengine.js:381-394 | the one-sentence sanitiser's result never contains a role label |
| Sanitize.CleanOneSentenceLong | src/scenarios/mitya-elevenlabs.voxengine.js:387-391 | when the first segment before '.', '!' or '?' trims to more than 3 UTF-16 units, the result is exactly that trimmed segment followed by one '.'; the kept piece occurs in the stripped text and has no sentence punctuation |
| Sanitize.CleanOneSentenceShort | src/scenarios/mitya-elevenlabs.voxengine.js:387-393 | when that trimmed first segment has at most 3 UTF-16 units and the stripped text is not blank, the result is the whole stripped text, trimmed and otherwise unchanged |
| Sanitize.CleanOneSentenceAt | src/scenarios/mitya-elevenlabs.voxengine.js:387-393 | with k the position of the first '.', '!' or '?' (or the end of the text), the result is the trimmed text before k plus '.' when that has more than 3 UTF-16 units; otherwise it is the whole stripped text trimmed, or the fallback question when that is blank |
| Sanitize.CleanOneSentenceBlank | src/scenarios/mitya-elevenlabs.voxengine.js:393 | a reply that is blank after label stripping gives "Когда вам удобно?" |
| Sanitize.CleanOneSentenceIdempotent | src/scenarios/mitya-elevenlabs.voxengine.js:381-394 | sanitising a result other than the fallback again changes nothing |
| Sanitize.CutQuestion | src/scenarios/mitya-elevenlabs.voxengine.js:387-391 | a question of more than three characters loses its '?' and gains a '.' |
| Sanitize.CleanOneSentenceFallbackChanges | src/scenarios/mitya-elevenlabs.voxengine.js:393 | the fallback is not a fixed point: "Когда вам удобно?" is sanitised to "Когда вам удобно." |
| Sanitize.CleanOneSentence | src/scenarios/mitya-assistant.voxengine.js:256-269 | the one-sentence sanitiser never returns an empty text |
| TwoSentence.Sentences | src/scenarios/mitya-inbound.voxengine.js:320 | the matches of `/[^.!?]+[.!?]+/g`; SentencesShaped, SentencesCover and SentencesAppendShaped state what they are |
| TwoSentence.CutTwoSentences | src/scenarios/mitya-inbound.voxengine.js:320-323 | keeps the first two matches joined by a space when there are more than two; CleanTwoSentencesLong and CleanTwoSentencesShort state both branches |
| TwoSentence.SentencesShaped | src/scenarios/mitya-inbound.voxengine.js:320 | every match of `[^.!?]+[.!?]+` starts with a non-punctuation run and ends with a non-empty punctuation run |
| TwoSentence.SentencesCover | src/scenarios/mitya-inbound.voxengine.js:320 | the matches, joined, are exactly the text from its first non-punctuation character to the end of its last punctuation run |
| TwoSentence.SentencesAppendShaped | src/scenarios/mitya-inbound.voxengine.js:320 | appending one sentence to a text that ends in punctuation adds exactly that match |
| TwoSentence.CleanTwoSentences | src/scenarios/mitya-inbound.voxengine.js:313-326 | the two-sentence sanitiser never returns an empty text |
| TwoSentence.CleanTwoSentencesRoleLabelFree | src/scenarios/mitya-inbound.voxengine.js:313-326 | the two-sentence sanitiser's result never contains a role label |
| TwoSentence.CleanTwoSentencesLong | src/scenarios/mitya-inbound.voxengine.js:321-323 | with more than two matches the result is the first two matches joined by one space, trimmed; it ends in punctuation, holds one or two matches, and its last match is the second sentence after a space |
| TwoSentence.CleanTwoSentencesShort | src/scenarios/mitya-inbound.voxengine.js:320-325 | with at most two matches the result is the stripped text trimmed, or the fallback when that is blank |
| TwoSentence.CleanTwoSentencesBlank | src/scenarios/mitya-inbound.voxengine.js:325 | a reply that is blank after label stripping gives "Поняла вас. Что-то ещё?" |
| TwoSentence.CleanTwoSentencesFixed | src/scenarios/mitya-inbound.voxengine.js:313-326 | a trimmed, label-free text of at most two sentences is returned unchanged |
| TwoSentence.FallbackSentences | src/scenarios/mitya-inbound.voxengine.js:325 | the fallback consists of the two matches "Поняла вас." and " Что-то ещё?" |
| TwoSentence.CleanTwoSentencesFallbackFixed | src/scenarios/mitya-inbound.voxengine.js:325 | unlike the one-sentence fallback, this fallback is a fixed point of its sanitiser |
| Greeting.SplitTerminators | src/scenarios/mitya-elevenlabs.voxengine.js:81 | `split(/[.!?]+/)`; SplitTerminatorsNoPunct states that no piece holds a terminator, and GreetingPartsLetters that the pieces keep every character other than whitespace and '.', '!', '?', in order |
| Greeting.SplitTerminatorsNoPunct | src/scenarios/mitya-elevenlabs.voxengine.js:81 | no piece of the split contains '.', '!' or '?' |
| Greeting.GreetingParts | src/scenarios/mitya-elevenlabs.voxengine.js:81-85 | the split pieces that are not blank, each trimmed and closed by '.'; GreetingPartsShape, GreetingPartsLetters, GreetingPartsEmptyIff and GreetingPartsRoundTrip state what they are |
| Greeting.GreetingPartsShape | src/scenarios/mitya-elevenlabs.voxengine.js:81-85 | every greeting part is non-blank after trimming, has no leading or trailing whitespace, ends with '.', and contains no other '.', '!' or '?' |
| Greeting.GreetingPartsLetters | src/scenarios/mitya-elevenlabs.voxengine.js:81-85 | the parts, joined, keep every character of the greeting other than whitespace and punctuation, in input order |
| Greeting.GreetingPartsEmptyIff | src/scenarios/mitya-elevenlabs.voxengine.js:81-85 | there are no parts exactly when the greeting is only whitespace and punctuation |
| Greeting.SpokenPartsRoundTrip | src/scenarios/mitya-elevenlabs.voxengine.js:81-85 | splitting the concatenation of well-formed parts gives back those parts |
| Greeting.GreetingPartsRoundTrip | src/scenarios/mitya-elevenlabs.voxengine.js:81-85 | splitting the joined parts of a greeting gives the same parts again |
| Dialog.Step | src/scenarios/mitya-elevenlabs.voxengine.js:95-181 | one host callback of the dialog scenarios; DialogProps.StepInv states the invariant it keeps, DialogBehaviour.StepActionKinds the actions each callback may emit, and DialogBehaviour.FinishedIsQuiet its effect on a finished call |
| Dialog.OnResult | src/scenarios/mitya-elevenlabs.voxengine.js:149-169 | the final-result handler; DialogBehaviour.ResultResetsSilence states its effect, and ResultsIgnored, GreetingNotInterruptible and InboundDeafWhileSpeaking its guards |
| Dialog.OnInterim | src/scenarios/mitya-elevenlabs.voxengine.js:171-181 | the interim-result handler; DialogBehaviour.InterimCancelsTimer states its effect |
| Dialog.ProcessInput | src/scenarios/mitya-elevenlabs.voxengine.js:273-315 | the turn: count it, screen the lowercased text, then ask the model after the filler; DialogBehaviour.TurnBegins, ScreeningEffect, the four per-scenario screening lemmas and FillerBeforeFirstRequest state it |
| Dialog.HandleReply | src/scenarios/mitya-elevenlabs.voxengine.js:317-332 | the reply handler; DialogBehaviour.ReplyHandled, ReplyShapeOf and AnswerEffect state it |
| Dialog.SilenceTick | src/scenarios/mitya-elevenlabs.voxengine.js:252-271 | the silence timeout; DialogBehaviour.PendingTextBeatsSilence, SilencePrompt, SilenceTimeoutCounted, ThreeSilencesEnd and SmartBotSilenceNeverEnds state it |
| Dialog.End | src/scenarios/mitya-elevenlabs.voxengine.js:483-505 | `endConversation`; DialogBehaviour.EndTakesEffectOnce and FarewellHangsUp state it |
| Dialog.OnPlaybackFinished | src/scenarios/mitya-elevenlabs.voxengine.js:217-241 | the end of a speech runs its pending callback unless the call is finished; DialogBehaviour.PromptRound, FarewellHangsUp and HangupOnlyWhenFinished state it |
| Dialog.OnLlmOutcome | src/scenarios/mitya-elevenlabs.voxengine.js:426-481 | the outcome of a model request; DialogBehaviour.OutcomeShape and FallbacksDistinct state it |
| DialogProps.InitInv | src/scenarios/mitya-elevenlabs.voxengine.js:8-51 | the state before the call connects satisfies the invariant |
| DialogProps.StepInv | src/scenarios/mitya-elevenlabs.voxengine.js:149-271 | every callback keeps the invariant: a finished call has no timer and no recogniser, there are no more outcomes than requests, the filler comes before any request, inbound never listens while it speaks, the greeting-gated scenarios listen only after the last greeting part, and a call that counts silences stays below three while it runs |
| DialogProps.RunInv | src/scenarios/mitya-elevenlabs.voxengine.js:149-178 | any sequence of callbacks keeps the invariant |
| DialogProps.ReachableInv | src/scenarios/mitya-elevenlabs.voxengine.js:106-115 | every state reachable from the initial one satisfies the invariant |
| DialogBehaviour.EndTakesEffectOnce | src/scenarios/mitya-elevenlabs.voxengine.js:483-491 | `endConversation` on a running call finishes it, clears the timer and detaches the recogniser before the farewell, and keeps the turn, history, filler flag and silence count; on a finished call, including a second time, it does nothing |
| DialogBehaviour.FarewellHangsUp | src/scenarios/mitya-inbound.voxengine.js:383-413 | in elevenlabs and inbound the farewell's playback end does not hang up and the fallback timer does; in assistant and smart-bot the playback end hangs up; only inbound appends the farewell to the log |
| DialogBehaviour.AnswerEffect | src/scenarios/mitya-inbound.voxengine.js:288-295 | a reply that is a farewell ends the call with itself; any other is spoken with listening resumed afterwards, and inbound stops listening while it speaks |
| DialogBehaviour.ReplyHandled | src/scenarios/mitya-inbound.voxengine.js:276-296 | the sanitised reply is appended to the history as the assistant (and, in inbound, to the log) before it is classified |
| DialogBehaviour.ReplyShapeOf | src/scenarios/mitya-elevenlabs.voxengine.js:317-332 | handling a reply adds exactly one assistant entry, keeps turn, requests, filler and silence count, and ends by speaking that entry; a finished call ignores it |
| DialogBehaviour.OutcomeShape | src/scenarios/mitya-elevenlabs.voxengine.js:317-332 | an outcome without an outstanding request is ignored; one with a request has the effect of a reply |
| DialogBehaviour.FallbacksDistinct | src/scenarios/mitya-inbound.voxengine.js:369-379 | the no-choices, parse-error and network-error outcomes map to three distinct replies in every scenario |
| DialogBehaviour.MessagesOrder | src/scenarios/mitya-inbound.voxengine.js:328-338 | the request starts with the system prompt, then the greeting as the assistant (except in smart-bot), then the history in order |
| DialogBehaviour.ScreeningEffect | src/scenarios/mitya-elevenlabs.voxengine.js:273-301 | a screening verdict ends the call with that text; no verdict appends the user entry and requests the model |
| DialogBehaviour.TurnBegins | src/scenarios/mitya-elevenlabs.voxengine.js:273-279 | processing input adds exactly one to the turn, clears the pending text and the timer, keeps history, filler and silence count, and then screens the lowercased text |
| DialogBehaviour.ElevenlabsScreening | src/scenarios/mitya-elevenlabs.voxengine.js:283-301 | elevenlabs checks termination, then a full date and time, then the cap of 8 turns, in that order; only the fall-through asks the model |
| DialogBehaviour.AssistantScreening | src/scenarios/mitya-assistant.voxengine.js:173-202 | assistant checks termination, then any day or time token, then the cap of 8 turns; only the fall-through asks the model |
| DialogBehaviour.InboundScreening | src/scenarios/mitya-inbound.voxengine.js:240-274 | inbound logs the user entry, then a goodbye ends the call with the goodbye text, then the cap of 10 turns; otherwise it asks the model |
| DialogBehaviour.SmartBotScreening | src/scenarios/smart-bot.voxengine.js:152-168 | smart-bot ends the call only past 10 turns, and otherwise asks the model |
| DialogBehaviour.AssistantEndsOnBareDay | src/scenarios/mitya-assistant.voxengine.js:192-195 | in assistant, a bare day word ends the call with the confirmation |
| DialogBehaviour.StepActionKinds | src/scenarios/smart-bot.voxengine.js:81-112 | playback is stopped only by a recognition result, and hang-up happens only on a playback end or the hang-up timer |
| DialogBehaviour.HangupOnlyWhenFinished | src/scenarios/mitya-elevenlabs.voxengine.js:496-505 | a hang-up happens only once the call is finished, and by the timer exactly in the scenarios that hang up by timer |
| DialogBehaviour.InboundNoBargeIn | src/scenarios/mitya-inbound.voxengine.js:130-154 | in every reachable inbound state no callback stops playback |
| DialogBehaviour.InboundNeverStopsPlayback | src/scenarios/mitya-inbound.voxengine.js:167-215 | no inbound run from the start ever stops playback: the barge-in branches are dead |
| DialogBehaviour.SilencePrompt | src/scenarios/mitya-elevenlabs.voxengine.js:252-271 | below the cap a silence speaks the first prompt, or the second on the second silence, with listening resumed afterwards; the count rises by one where silences are counted |
| DialogBehaviour.SilenceTimeoutCounted | src/scenarios/mitya-elevenlabs.voxengine.js:252-271 | a silence timeout with no pending text counts the silence: below three it speaks the matching prompt, at three it ends the call |
| DialogBehaviour.SmartBotSilenceNeverEnds | src/scenarios/smart-bot.voxengine.js:138-149 | in smart-bot a silence speaks "Вы здесь?" without counting and re-arms the timer after playback, so silence never ends the call |
| DialogBehaviour.PendingTextBeatsSilence | src/scenarios/mitya-elevenlabs.voxengine.js:255-258 | a timeout with pending text processes that text instead of counting a silence |
| DialogBehaviour.PromptRound | src/scenarios/mitya-elevenlabs.voxengine.js:252-271 | a silence followed by the prompt's playback end speaks the prompt, counts it, and leaves the call listening with the silence timer armed |
| DialogBehaviour.ThreeSilencesEnd | src/scenarios/mitya-inbound.voxengine.js:219-238 | three silences in a row speak the first and second prompts and then detach and say the connection-lost message: the third prompt is never spoken |
| DialogBehaviour.UsedFillerNeverReset | src/scenarios/mitya-elevenlabs.voxengine.js:303-314 | once the filler is used it stays used, and the step that uses it speaks only the filler |
| DialogBehaviour.FillerBeforeFirstRequest | src/scenarios/mitya-assistant.voxengine.js:204-217 | the filler is used only before the first request to the model |
| DialogBehaviour.FillerAtMostOnce | src/scenarios/mitya-elevenlabs.voxengine.js:303-314 | over any run of callbacks the filler is spoken at most once, and not at all if it was already used |
| DialogBehaviour.ResultResetsSilence | src/scenarios/mitya-elevenlabs.voxengine.js:149-169 | a non-blank final result while listening stores the text, resets the silence count, arms the debounce timer, and stops the bot if it is speaking |
| DialogBehaviour.InterimCancelsTimer | src/scenarios/smart-bot.voxengine.js:101-112 | a non-blank interim result cancels the timer, keeps the pending text, and stops the bot if it is speaking |
| DialogBehaviour.ResultsIgnored | src/scenarios/smart-bot.voxengine.js:82-83 | blank results, results after finishing, and results while not listening change nothing |
| DialogBehaviour.GreetingNotInterruptible | src/scenarios/mitya-assistant.voxengine.js:82-88 | in elevenlabs and assistant every result is ignored until the last greeting part has finished |
| DialogBehaviour.InboundDeafWhileSpeaking | src/scenarios/mitya-inbound.voxengine.js:127-156 | in inbound every result is ignored while the bot speaks |
| DialogBehaviour.FinishedIsQuiet | src/scenarios/mitya-elevenlabs.voxengine.js:217-221 | once finished, recognition, timer and connection callbacks do nothing, outcomes emit nothing, and a playback end at most hangs up |
| Ivr.Step | src/scenarios/inbound-ivr.voxengine.js:52-245 | one host callback of the IVR; Ivr.StepInv states the invariant it keeps |
| Ivr.OnTone | src/scenarios/inbound-ivr.voxengine.js:108-120 | the DTMF handler; Ivr.AnyToneAccepted and OneChoicePerRound state it |
| Ivr.OnVoice | src/scenarios/inbound-ivr.voxengine.js:122-142 | the recognition handler; Ivr.SpokenOneWins, SpokenTwoChoosesInfo, SpokenOtherIgnored, LateAnswerDuringNoInputPrompt and OneChoicePerRound state it |
| Ivr.Accept | src/scenarios/inbound-ivr.voxengine.js:145-182 | an accepted choice ends the wait and runs `processInput`; Ivr.AcceptOne, InfoThenHangup and AnyToneAccepted state its three branches |
| Ivr.RemoveListener | src/scenarios/inbound-ivr.voxengine.js:72 | removing a listener leaves exactly the other registered listeners |
| Ivr.RemoveListenerNoDup | src/scenarios/inbound-ivr.voxengine.js:196 | removal keeps the listener list free of duplicates |
| Ivr.AddListenerInv | src/scenarios/inbound-ivr.voxengine.js:160 | adding a listener registers it once, keeps every other one, and keeps the invariant |
| Ivr.StepInv | src/scenarios/inbound-ivr.voxengine.js:52-245 | every event keeps the listener list free of duplicates and every timer and test numbered below the next number |
| Ivr.ReachableInv | src/scenarios/inbound-ivr.voxengine.js:52-68 | every state reachable from the start satisfies the invariant |
| Ivr.AcceptOne | src/scenarios/inbound-ivr.voxengine.js:154-160 | choosing 1 stops waiting and the recogniser, speaks the test introduction, and registers the test-mode start |
| Ivr.SpokenOneWins | src/scenarios/inbound-ivr.voxengine.js:122-136 | while the menu waits, a spoken result meaning 1 is accepted as 1, even if it also means 2; the recogniser is detached only if it is still attached |
| Ivr.SpokenTwoChoosesInfo | src/scenarios/inbound-ivr.voxengine.js:137-141 | while the menu waits, a spoken result meaning 2 but not 1 ("информация", "два" or exactly "2") closes the round, stops the recogniser if it runs, plays the information text and registers the hang-up for its end |
| Ivr.SpokenOtherIgnored | src/scenarios/inbound-ivr.voxengine.js:122-142 | while the menu waits, a spoken result meaning neither choice only records the normalised text, and waiting goes on |
| Ivr.AnyToneAccepted | src/scenarios/inbound-ivr.voxengine.js:109-120 | any DTMF tone is accepted while waiting; tones other than 1 and 2 play the invalid-input prompt and register a new menu round |
| Ivr.OneChoicePerRound | src/scenarios/inbound-ivr.voxengine.js:112-117 | after a choice is accepted, further tones and spoken results are ignored |
| Ivr.MenuStartsRound | src/scenarios/inbound-ivr.voxengine.js:71-88 | a menu round clears both inputs, waits, starts the recogniser and arms a fresh timeout |
| Ivr.SilentRound | src/scenarios/inbound-ivr.voxengine.js:83-87 | a timeout with no choice stops the recogniser, plays the no-input prompt, and its end starts the next round |
| Ivr.LateAnswerDuringNoInputPrompt | src/scenarios/inbound-ivr.voxengine.js:83-87 | the no-input timeout stops the recogniser but not the wait, so a spoken 1 during the no-input prompt is still accepted: the test introduction follows the no-input prompt, and both the next menu round and the test mode are registered for the end of playback |
| Ivr.NoInputLoopUnbounded | src/scenarios/inbound-ivr.voxengine.js:186-192 | any number of silent rounds each play the no-input prompt, and the menu is still waiting after them |
| Ivr.InfoThenHangup | src/scenarios/inbound-ivr.voxengine.js:161-169 | choosing 2 plays the information text and then hangs up |
| Ivr.TestModeEchoes | src/scenarios/inbound-ivr.voxengine.js:195-245 | choosing 1, then the beep, a result and the test timeout, speaks the echo of that result and then hangs up |
| Ivr.TestResponseEcho | src/scenarios/inbound-ivr.voxengine.js:226-231 | the test reply is "Вы сказали: " + text + the fixed ending when something was heard, and the fixed failure text otherwise |
| Ivr.TestResponseInjective | src/scenarios/inbound-ivr.voxengine.js:226-231 | different heard texts give different test replies |
| TestCall.OnHeard | src/scenarios/test-call.voxengine.js:79-99 | the recognition handler; TestCall.LastResultWins and BlankOrLateIgnored state it |
| TestCall.Respond | src/scenarios/test-call.voxengine.js:101-127 | `respond`; TestCall.RespondOnce, FinalTextEcho and RespondAtMostOnce state it |
| TestCall.OnPlaybackFinished | src/scenarios/test-call.voxengine.js:54-76 | a playback end runs the registered listeners in order; TestCall.TalkOverGreeting and HangupOnlyAfterRespond state it |
| TestCall.FinalTextEcho | src/scenarios/test-call.voxengine.js:114-119 | the final message quotes the recognised text between the fixed prefix and suffix, or is the no-answer text when nothing was recognised |
| TestCall.FinalTextInjective | src/scenarios/test-call.voxengine.js:114-119 | different recognised texts give different final messages |
| TestCall.BlankOrLateIgnored | src/scenarios/test-call.voxengine.js:81-82 | blank results and any result after finishing change nothing |
| TestCall.LastResultWins | src/scenarios/test-call.voxengine.js:85-98 | a non-blank result overwrites the recognised text, stops the bot if it is speaking, and replaces the pending response timer with a new one |
| TestCall.RespondOnce | src/scenarios/test-call.voxengine.js:101-127 | `respond` finishes the call, detaches the recogniser before speaking the final message, and registers the hang-up; a second call does nothing |
| TestCall.StepInv | src/scenarios/test-call.voxengine.js:41-128 | every event keeps the invariant: the hang-up listener exists exactly once the call is finished, and the recogniser is attached only while the call runs |
| TestCall.ReachableInv | src/scenarios/test-call.voxengine.js:41-61 | every state reachable from the start satisfies the invariant |
| TestCall.HangupOnlyAfterRespond | src/scenarios/test-call.voxengine.js:125-127 | in every reachable state a hang-up happens exactly on a playback end after `respond` has finished the call |
| TestCall.RespondAtMostOnce | src/scenarios/test-call.voxengine.js:101-104 | over any run of events `respond` takes effect at most once |
| TestCall.TalkOverGreeting | src/scenarios/test-call.voxengine.js:64-99 | speaking over the greeting stops it; the response timer then speaks the echo and hangs up after its playback |
| Dashboard.Middleware | dashboard/middleware.ts:11-27 | a redirect never points at the requested path: it goes to the call list with the cookie and to the login page without it |
| Dashboard.GateDecision | dashboard/middleware.ts:11-27 | static paths and the webhook pass; a request without the cookie off the login page goes to login; one with the cookie on the login page goes to the call list; everything else passes, each as an if-and-only-if |
| Dashboard.PublicPathsPass | dashboard/middleware.ts:8-15 | paths under "/_next" or "/favicon", and "/api/webhook", pass whatever the cookie |
| Dashboard.RedirectSettles | dashboard/middleware.ts:18-27 | following a redirect with the same cookie passes: there is never a second hop |
| Dashboard.Handle | dashboard/middleware.ts:30-32 | the gate run only on the paths the matcher selects; Dashboard.MatcherAgrees states that this is the gate's decision everywhere |
| Dashboard.MatcherAgrees | dashboard/middleware.ts:30-32 | the paths the matcher leaves out are static paths, so routing gives the gate's decision everywhere |
| Dashboard.Defaults | dashboard/app/api/calls/route.ts:7-8 | missing page and limit give page 1 of 20 |
| Dashboard.Skip | dashboard/app/api/calls/route.ts:9 | the skipped rows and one page end at page times limit, and nothing is skipped exactly on page 1 |
| Dashboard.CeilDiv | dashboard/app/api/calls/route.ts:26 | the page count holds all rows, one page fewer would not when there are rows, and no rows give zero pages |
| Dashboard.CeilDivLeast | dashboard/app/api/calls/route.ts:26 | the page count is the least count of pages that holds all rows |
| Dashboard.Paginate | dashboard/app/api/calls/route.ts:20-28 | the pagination block echoes page, limit and total unchanged, and its page count holds all rows |
| Dashboard.Window | dashboard/app/api/calls/route.ts:12-16 | the page holds up to the limit of rows starting at the skip, in stored order, and is empty past the end |
| Dashboard.ListCalls | dashboard/app/api/calls/route.ts:5-35 | a store failure gives status 500 with "Failed to get calls"; otherwise the page holds exactly the stored rows from the skip on, in order: as many as the limit, or all that remain when fewer do, and none past the end, next to the echoed pagination |
| Dashboard.RowPage | dashboard/app/api/calls/route.ts:9-26 | row i lies on page i div limit + 1, which is one of the reported pages |
| Dashboard.RowPageUnique | dashboard/app/api/calls/route.ts:9 | no other page holds row i |
| Dashboard.RowOnOnePage | dashboard/app/api/calls/route.ts:9-26 | every stored row is on exactly one reported page |
| Dashboard.PastLastPageEmpty | dashboard/app/api/calls/route.ts:9-26 | a page past the last reported one is empty |

## Left out

- The Voximplant host API: call control, `say`, TTS players, ASR objects, `sendMediaTo`/`stopMediaTo` and event dispatch. The scenarios' callbacks are events and the host calls are actions.
- The HTTP request to the language model and `JSON.parse` of its body. Only the four outcomes (reply, no choices, parse error, network error) and their mapping to fixed replies are modelled.
- Timer durations (100, 500, 600, 800, 1500, 5000, 7000 and 10000 ms). Timers are events, and only their order matters.
- The 100 ms pause between greeting parts in elevenlabs is folded into the playback end. Nothing can happen during it: results are gated and no timer is armed.
- The inbound 500 ms hang-up after the farewell. It sits behind the `!isFinished` guard that `endConversation` has just made false, so it never runs. The call hangs up by the 10-second fallback timer.
- Overlapping model requests. The code has no guard: a second request can be sent while one is pending. The model counts requests and answers; it neither queues nor supersedes them.
- Several playback listeners at once in the dialog scenarios. Their call-level speech paths (`speakYandex` in elevenlabs and inbound, `speak` in assistant and smart-bot) add a `PlaybackFinished` listener for every speech, and each listener removes itself only when it runs. A speech cut off by a barge-in can leave its listener registered, and the next playback end then runs it too; assistant's filler callback, which calls `callLLM`, is one such listener. The dialog model keeps one pending playback callback: a new speech replaces it, and only the latest callback runs.
- Backend outcomes that answer no request. In the source every HTTP callback answers its own request; the dialog model counts requests and answers, and an outcome event with none outstanding is ignored.
- Speech and logging: voice and TTS backend choice (ElevenLabs or Yandex), `Logger`, the timestamps in the inbound conversation log (entries keep role and text), the system prompt's wording, and the `onDisconnected` log.
- Case folding beyond ASCII and Cyrillic А–Я/Ё, and general regular expressions beyond the fixed patterns the sanitisers and the greeting splitter use.
- How a scenario's configuration is assembled (`Dialog.MakeConfig`). The per-scenario constants and the call's custom data (greeting, system prompt) are taken as given. The only logic in that step, the greeting split, is modelled in `Greeting`.
- IVR: the ASR error handler, which only logs. The model has one recogniser flag, so a second `startASR` while one runs is not modelled. A test recogniser's results go to every running test. Playback listeners are taken to follow DOM `addEventListener`: adding one that is already registered does nothing.
- Dashboard.MatcherAgrees: the matcher's `favicon.ico` regex is read as a literal prefix. In the regex the '.' matches any character.
- Dashboard.ListCalls: requires page ≥ 1 and limit > 0. What `parseInt` gives for a non-number, and what the database client does with a negative skip or a zero limit, are outside the model. `total` is the length of the stored list, taken in the store's newest-first order. The count and the page read are not two separate queries.
- `Math.ceil` on floating point is modelled as whole-number ceiling division.
- TwoSentence.CleanTwoSentences: idempotence in general is not proved. It is proved only for a trimmed, label-free text of at most two sentences, and for the fallback.
- Other parts of the repository: the avatar-call scenario, the API client, the configuration and scripts, the other dashboard routes, pages and components.
