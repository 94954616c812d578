/** The simple-bot variant of the relay. It keeps no state: every webhook is mapped to
    the instruction list it answers with and at most one outbound effect (a request to the
    text bot, text-to-speech played into the call, or an interruption of it). */
module SimpleBotRelay {
  import opened Wrappers
  import opened Json
  import opened CallControl

  /** What a recognition webhook produces: the response body and the outbound effect. */
  datatype AsrReply = AsrReply(ncco: Ncco, effect: Option<Effect>)

  // ----- /answer -----

  /** Greet the caller, then capture speech. */
  function AnswerNcco(uuid: string, host: string, cfg: Config): Ncco
  {
    [ Talk(cfg.languageCode, Some(cfg.greetingText), cfg.ttsStyle, None),
      CaptureSpeech(uuid, host, cfg) ]
  }

  /** On the wire: a talk object with the greeting (no barge-in member), then the capture
      object aimed at this host's /asr and listening to this call. */
  lemma AnswerWireForm(uuid: string, host: string, cfg: Config)
    ensures RenderNcco(AnswerNcco(uuid, host, cfg)) == JArray([
      JObject(map[
        "action" := JString("talk"),
        "language" := JString(cfg.languageCode),
        "text" := JString(cfg.greetingText),
        "style" := cfg.ttsStyle]),
      RenderAction(CaptureSpeech(uuid, host, cfg))])
  {
    var n := AnswerNcco(uuid, host, cfg);
    RenderItemsAt(n, 0);
    RenderItemsAt(n, 1);
    assert RenderItems(n) == [RenderAction(n[0]), RenderAction(n[1])];
    var talk := map["action" := JString("talk"), "language" := JString(cfg.languageCode), "style" := cfg.ttsStyle];
    assert OptionalStringMember("text", Some(cfg.greetingText)) == map["text" := JString(cfg.greetingText)];
    assert OptionalBoolMember("bargeIn", None) == map[];
    assert talk + map["text" := JString(cfg.greetingText)] + map[] == talk["text" := JString(cfg.greetingText)];
    assert RenderAction(n[0]) == JObject(talk["text" := JString(cfg.greetingText)]);
    assert talk["text" := JString(cfg.greetingText)] == map[
        "action" := JString("talk"),
        "language" := JString(cfg.languageCode),
        "text" := JString(cfg.greetingText),
        "style" := cfg.ttsStyle];
    assert n[1] == CaptureSpeech(uuid, host, cfg);
  }

  // ----- /asr -----

  /** The recognition handler always re-arms speech capture; it forwards the transcript
      to the bot only when a first hypothesis exists and its text is neither empty nor null. */
  function Asr(uuid: string, speech: SpeechPayload, host: string, cfg: Config): (r: AsrReply)
    ensures r.ncco == [CaptureSpeech(uuid, host, cfg)]
    ensures forall a :: a in r.ncco ==> !a.Talk?
    ensures r.effect.Some? <==>
      Recognize(speech).Heard? && Recognize(speech).transcript.Some? && Recognize(speech).transcript.value != ""
    ensures r.effect.Some? ==> r.effect.value == ForwardToBot(
      BotRequest(uuid, Recognize(speech).transcript.value, cfg.language, HandlerUrl(host, "/botreply")))
  {
    var ncco := [CaptureSpeech(uuid, host, cfg)];
    var effect :=
      match speech.results
      case Results(items) =>
        if |items| < 1 then None
        else
          var transcript := items[0].text;
          if transcript != Some("") && transcript != None
          then Some(ForwardToBot(BotRequest(uuid, transcript.value, cfg.language, "https://" + host + "/botreply")))
          else None
      case _ => None;
    AsrReply(ncco, effect)
  }

  /** The response is the same single capture directive whatever the payload holds, and
      it is the directive the answer response ends with. */
  lemma AsrResponseIgnoresPayload(uuid: string, s1: SpeechPayload, s2: SpeechPayload, host: string, cfg: Config)
    ensures Asr(uuid, s1, host, cfg).ncco == Asr(uuid, s2, host, cfg).ncco
    ensures AnswerNcco(uuid, host, cfg)[1..] == Asr(uuid, s1, host, cfg).ncco
  {
    assert AnswerNcco(uuid, host, cfg)[1..] == [CaptureSpeech(uuid, host, cfg)];
  }

  /** Missing, null or empty results, and payloads that only report a timeout or an
      error, never reach the bot. */
  lemma SilenceNeverReachesBot(uuid: string, speech: SpeechPayload, host: string, cfg: Config)
    requires !speech.results.Results? || speech.results.items == []
    ensures Asr(uuid, speech, host, cfg).effect == None
  {
  }

  /** The bot request on the wire: the call id, the transcript verbatim, the bot language
      and the reply webhook of this host. */
  lemma BotRequestWireForm(uuid: string, speech: SpeechPayload, host: string, cfg: Config)
    requires Asr(uuid, speech, host, cfg).effect.Some?
    ensures var e := Asr(uuid, speech, host, cfg).effect.value;
      e.ForwardToBot? &&
      RenderBotRequest(e.body) == JObject(map[
        "id" := JString(uuid),
        "textRequest" := JString(speech.results.items[0].text.value),
        "language" := JString(cfg.language),
        "webhookUrl" := JString("https://" + host + "/botreply")])
  {
  }

  // ----- /rtc -----

  /** The members of a real-time call event the handler looks at. */
  datatype RtcEvent = RtcEvent(eventType: Option<string>, channelId: string)

  /** The caller starting to speak interrupts the speech being played on that channel. */
  function Rtc(ev: RtcEvent): (e: Option<Effect>)
    ensures e.Some? <==> ev.eventType == Some("audio:speaking:on")
    ensures e.Some? ==> e.value == StopTts(ev.channelId)
  {
    if ev.eventType == Some("audio:speaking:on") then Some(StopTts(ev.channelId)) else None
  }

  // ----- /botreply -----

  /** The bot's reply is spoken into the call it names, interruptibly. The reply text may
      be missing from the body (None). */
  function BotReply(id: string, botText: Option<string>, cfg: Config): (e: Effect)
    ensures e.PlayTts? && e.uuid == id
    ensures e.tts == TtsRequest(botText, cfg.languageCode, cfg.ttsStyle, true)
  {
    PlayTts(id, TtsRequest(botText, cfg.languageCode, cfg.ttsStyle, true))
  }

  /** A bot that answers a forwarded request with that request's id gets its text spoken
      into the very call whose words were forwarded. */
  lemma ReplyReachesCaller(uuid: string, speech: SpeechPayload, host: string, cfg: Config, botText: Option<string>)
    requires Asr(uuid, speech, host, cfg).effect.Some?
    ensures var req := Asr(uuid, speech, host, cfg).effect.value.body;
      req.webhookUrl == HandlerUrl(host, "/botreply") &&
      BotReply(req.id, botText, cfg) == PlayTts(uuid, TtsRequest(botText, cfg.languageCode, cfg.ttsStyle, true))
  {
  }
}
