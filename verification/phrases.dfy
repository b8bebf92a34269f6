/**
  Phrase classifiers of the call scenarios: plain substring search over fixed
  Russian phrase lists. Every classifier expects text that the caller has
  already lower-cased (`Text.LowerStr`), as the scenarios do before classifying.
 */
module Phrases {
  import opened Text

  // ---------------------------------------------------------------------
  // Phrase lists
  // ---------------------------------------------------------------------

  /** Day tokens of the elevenlabs scenario. */
  const DayPatterns: seq<string> := [
    "завтра", "послезавтра", "сегодня",
    "понедельник", "вторник", "среда", "четверг", "пятница", "суббота", "воскресенье",
    "на неделе", "на следующей неделе", "через неделю"
  ]

  /** Time tokens of the elevenlabs scenario. */
  const TimePatterns: seq<string> := [
    "в час", "в два", "в три", "в четыре", "в пять", "в шесть", "в семь", "в восемь",
    "в девять", "в десять", "в одиннадцать", "в двенадцать",
    "часов", "часа", "час ",
    "утром", "днём", "днем", "вечером",
    "через час", "через два", "через полчаса", "через пару часов",
    "после обеда", "после работы", "после шести", "после семи",
    "ближе к вечеру", "в обед"
  ]

  /** Phrases that name a day and a time in one go (elevenlabs). */
  const CombinedPatterns: seq<string> := [
    "завтра утром", "завтра днем", "завтра днём", "завтра вечером",
    "сегодня вечером", "сегодня днем", "сегодня днём",
    "послезавтра утром", "послезавтра днем", "послезавтра вечером",
    "завтра в ", "сегодня в ", "послезавтра в ",
    "через час", "через полчаса", "через пару часов", "минут через"
  ]

  /** The single merged day-or-time list of the assistant scenario. */
  const MergedTimePatterns: seq<string> := [
    "завтра", "послезавтра", "сегодня",
    "понедельник", "вторник", "среда", "четверг", "пятница", "суббота", "воскресенье",
    "на неделе", "на следующей неделе", "через неделю",
    "в час", "в два", "в три", "в четыре", "в пять", "в шесть", "в семь", "в восемь",
    "в девять", "в десять", "в одиннадцать", "в двенадцать",
    "часов", "часа", "час ",
    "утром", "днём", "днем", "вечером", "ночью",
    "через час", "через два", "через полчаса", "через пару часов",
    "после обеда", "после работы", "после шести", "после семи",
    "минут через", "позже сегодня", "ближе к вечеру"
  ]

  /** Refusal and goodbye phrases that end an outbound call at once (elevenlabs and assistant). */
  const EndPatterns: seq<string> := [
    "не звоните", "не надо", "не интересно", "отстаньте",
    "в черный список", "до свидания", "всего доброго",
    "нет времени вообще", "некогда совсем", "занят очень",
    "не хочу", "отвалите", "прекратите"
  ]

  /** Goodbye phrases of an inbound caller. */
  const GoodbyePatterns: seq<string> := [
    "до свидания", "всего доброго", "пока", "спасибо до свидания", "ладно пока"
  ]

  /** Phrases that make `getFarewell` apologise. */
  const RudePatterns: seq<string> := ["не звоните", "отстаньте", "отвалите"]

  /** Phrases that make `getFarewell` answer with a plain goodbye. */
  const ByePatterns: seq<string> := ["до свидания", "всего доброго"]

  // ---------------------------------------------------------------------
  // Classifiers
  // ---------------------------------------------------------------------

  /** `hasDayInResponse` (elevenlabs): some day token occurs. */
  predicate HasDay(t: string) {
    ContainsAny(t, DayPatterns)
  }

  /** `hasTimeInResponse` (elevenlabs): some time token occurs. */
  predicate HasTime(t: string) {
    ContainsAny(t, TimePatterns)
  }

  /** `hasFullDateTime` (elevenlabs): a combined phrase occurs, or a day token and a time token both do. */
  function HasFullDateTime(t: string): (b: bool)
    ensures b <==> (exists p :: p in CombinedPatterns && Occurs(p, t))
                   || ((exists p :: p in DayPatterns && Occurs(p, t)) && (exists p :: p in TimePatterns && Occurs(p, t)))
  {
    ContainsAny(t, CombinedPatterns) || (HasDay(t) && HasTime(t))
  }

  /** `hasTimeInResponse` of the assistant scenario: one merged list of day and time tokens. */
  function HasDayOrTime(t: string): (b: bool)
    ensures b <==> exists p :: p in MergedTimePatterns && Occurs(p, t)
  {
    ContainsAny(t, MergedTimePatterns)
  }

  /** `shouldEndCall` (elevenlabs and assistant). */
  function ShouldEndCall(t: string): (b: bool)
    ensures b <==> exists p :: p in EndPatterns && Occurs(p, t)
  {
    ContainsAny(t, EndPatterns)
  }

  /** `isUserGoodbye` (inbound). */
  function IsUserGoodbye(t: string): (b: bool)
    ensures b <==> exists p :: p in GoodbyePatterns && Occurs(p, t)
  {
    ContainsAny(t, GoodbyePatterns)
  }

  /** The two outbound assistants: Aisha (elevenlabs) speaks in the feminine, Filipp (assistant) in the masculine. */
  datatype Persona = Aisha | Filipp

  function ApologyFarewell(p: Persona): string {
    match p
    case Aisha => "Поняла, простите за беспокойство. Всего доброго!"
    case Filipp => "Понял, извините за беспокойство. Всего доброго!"
  }

  const PlainGoodbye: string := "До свидания!"
  const PoliteFarewell: string := "Хорошо, не буду отвлекать. Всего доброго!"

  /** `getFarewell`: the apology wins over the plain goodbye, which wins over the polite default. */
  function GetFarewell(p: Persona, t: string): (r: string)
    ensures r == ApologyFarewell(p) || r == PlainGoodbye || r == PoliteFarewell
    ensures r == ApologyFarewell(p) <==> exists q :: q in RudePatterns && Occurs(q, t)
    ensures r == PlainGoodbye <==>
              (forall q :: q in RudePatterns ==> !Occurs(q, t)) && exists q :: q in ByePatterns && Occurs(q, t)
  {
    if ContainsAny(t, RudePatterns) then ApologyFarewell(p)
    else if ContainsAny(t, ByePatterns) then PlainGoodbye
    else PoliteFarewell
  }

  /** `isEndPhrase` of elevenlabs and assistant, applied to a reply (lower-cased here, as the source does). */
  function IsEndPhraseOutbound(reply: string): (b: bool)
    ensures b <==> exists p :: p in ["до свидания", "всего доброго", "всего хорошего"] && Occurs(p, LowerStr(reply))
  {
    ContainsAny(LowerStr(reply), ["до свидания", "всего доброго", "всего хорошего"])
  }

  /** `isEndPhrase` of the inbound scenario. */
  function IsEndPhraseInbound(reply: string): (b: bool)
    ensures b <==> exists p :: p in ["до свидания", "всего доброго", "спасибо за звонок"] && Occurs(p, LowerStr(reply))
  {
    ContainsAny(LowerStr(reply), ["до свидания", "всего доброго", "спасибо за звонок"])
  }

  /** The inline farewell test of the smart-bot scenario. */
  function IsEndPhraseSmartBot(reply: string): (b: bool)
    ensures b <==> exists p :: p in ["до свидания", "всего доброго"] && Occurs(p, LowerStr(reply))
  {
    ContainsAny(LowerStr(reply), ["до свидания", "всего доброго"])
  }

  // ---------------------------------------------------------------------
  // Consequences of plain substring search
  // ---------------------------------------------------------------------

  lemma NotOccursByChar(pat: string, text: string, k: nat)
    requires k < |pat| && pat[k] !in text
    ensures !Occurs(pat, text)
  {
    if Occurs(pat, text) {
      OccursChars(pat, text, pat[k]);
    }
  }

  lemma NoDayInAnHour1()
    ensures !Occurs(DayPatterns[0], "через час") && !Occurs(DayPatterns[1], "через час") && !Occurs(DayPatterns[2], "через час") && !Occurs(DayPatterns[3], "через час")
  {
    NotOccursByChar("завтра", "через час", 2);
    NotOccursByChar("послезавтра", "через час", 0);
    NotOccursByChar("сегодня", "через час", 2);
    NotOccursByChar("понедельник", "через час", 0);
  }

  lemma NoDayInAnHour2()
    ensures !Occurs(DayPatterns[4], "через час") && !Occurs(DayPatterns[5], "через час") && !Occurs(DayPatterns[6], "через час") && !Occurs(DayPatterns[7], "через час")
  {
    NotOccursByChar("вторник", "через час", 0);
    NotOccursByChar("среда", "через час", 3);
    NotOccursByChar("четверг", "через час", 2);
    NotOccursByChar("пятница", "через час", 0);
  }

  lemma NoDayInAnHour3()
    ensures !Occurs(DayPatterns[8], "через час") && !Occurs(DayPatterns[9], "через час") && !Occurs(DayPatterns[10], "через час") && !Occurs(DayPatterns[11], "через час") && !Occurs(DayPatterns[12], "через час")
  {
    NotOccursByChar("суббота", "через час", 1);
    NotOccursByChar("воскресенье", "через час", 0);
    NotOccursByChar("на неделе", "через час", 0);
    NotOccursByChar("на следующей неделе", "через час", 0);
    NotOccursByChar("через неделю", "через час", 6);
  }

  lemma NoDayInAnHour()
    ensures !HasDay("через час")
  {
    NoDayInAnHour1();
    NoDayInAnHour2();
    NoDayInAnHour3();
  }

  lemma NoDayInMinutesLater1()
    ensures !Occurs(DayPatterns[0], "минут через") && !Occurs(DayPatterns[1], "минут через") && !Occurs(DayPatterns[2], "минут через") && !Occurs(DayPatterns[3], "минут через")
  {
    NotOccursByChar("завтра", "минут через", 1);
    NotOccursByChar("послезавтра", "минут через", 0);
    NotOccursByChar("сегодня", "минут через", 0);
    NotOccursByChar("понедельник", "минут через", 0);
  }

  lemma NoDayInMinutesLater2()
    ensures !Occurs(DayPatterns[4], "минут через") && !Occurs(DayPatterns[5], "минут через") && !Occurs(DayPatterns[6], "минут через") && !Occurs(DayPatterns[7], "минут через")
  {
    NotOccursByChar("вторник", "минут через", 0);
    NotOccursByChar("среда", "минут через", 0);
    NotOccursByChar("четверг", "минут через", 3);
    NotOccursByChar("пятница", "минут через", 0);
  }

  lemma NoDayInMinutesLater3()
    ensures !Occurs(DayPatterns[8], "минут через") && !Occurs(DayPatterns[9], "минут через") && !Occurs(DayPatterns[10], "минут через") && !Occurs(DayPatterns[11], "минут через") && !Occurs(DayPatterns[12], "минут через")
  {
    NotOccursByChar("суббота", "минут через", 0);
    NotOccursByChar("воскресенье", "минут через", 0);
    NotOccursByChar("на неделе", "минут через", 1);
    NotOccursByChar("на следующей неделе", "минут через", 1);
    NotOccursByChar("через неделю", "минут через", 8);
  }

  lemma NoDayInMinutesLater()
    ensures !HasDay("минут через")
  {
    NoDayInMinutesLater1();
    NoDayInMinutesLater2();
    NoDayInMinutesLater3();
  }

  /** A combined phrase alone makes a full date and time. */
  lemma FullByCombined(t: string, p: string)
    requires p in CombinedPatterns && Occurs(p, t)
    ensures HasFullDateTime(t)
  {
  }

  /** "через час" ("in an hour") names no day, yet counts as a full date and time. */
  lemma InAnHourAloneIsFull()
    ensures HasFullDateTime("через час")
    ensures !HasDay("через час")
  {
    OccursSelf("через час");
    assert CombinedPatterns[13] == "через час";
    FullByCombined("через час", "через час");
    NoDayInAnHour();
  }

  /** "минут через" ("in a few minutes") names no day either, and also counts as full. */
  lemma MinutesLaterAloneIsFull()
    ensures HasFullDateTime("минут через")
    ensures !HasDay("минут через")
  {
    OccursSelf("минут через");
    assert CombinedPatterns[16] == "минут через";
    FullByCombined("минут через", "минут через");
    NoDayInMinutesLater();
  }

  /** Any day token on its own already satisfies the assistant's merged check. */
  lemma BareDayIsTimeForAssistant(t: string, day: string)
    requires day in DayPatterns && Occurs(day, t)
    ensures HasDayOrTime(t)
  {
    assert DayPatterns == MergedTimePatterns[..13];
    assert day in MergedTimePatterns;
  }

  /** A refusal together with a goodbye still gets the apology, and ends the call. */
  lemma ApologyWinsOverGoodbye(p: Persona, t: string, rude: string)
    requires rude in RudePatterns && Occurs(rude, t)
    ensures ShouldEndCall(t)
    ensures GetFarewell(p, t) == ApologyFarewell(p)
  {
    assert rude in EndPatterns;
  }

  /** Whatever text ends the outbound call, the farewell is one of three fixed phrases, and a goodbye alone is answered in kind. */
  lemma GoodbyeAnsweredInKind(p: Persona, t: string)
    requires Occurs("до свидания", t)
    requires forall q :: q in RudePatterns ==> !Occurs(q, t)
    ensures ShouldEndCall(t)
    ensures GetFarewell(p, t) == PlainGoodbye
  {
    assert "до свидания" in EndPatterns;
    assert "до свидания" in ByePatterns;
  }

  /** Any text containing "пока" is an inbound goodbye, including "я пока думаю" ("I am still thinking"). */
  lemma PokaIsGoodbye(t: string)
    requires Occurs("пока", t)
    ensures IsUserGoodbye(t)
  {
    assert "пока" in GoodbyePatterns;
  }

  lemma StillThinkingIsGoodbye()
    ensures IsUserGoodbye("я пока думаю")
  {
    OccursInfix("я ", "пока", " думаю");
    assert "я " + "пока" + " думаю" == "я пока думаю";
    PokaIsGoodbye("я пока думаю");
  }
}
