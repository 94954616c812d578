/** The vocabulary both relay variants share with the voice platform: the call-control
    directives (NCCO actions) they return or transfer to, their JSON wire form, the
    outbound effects the handlers trigger, and the speech-recognition payload. */
module CallControl {
  import opened Wrappers
  import opened Json

  /** Locale and voice settings, read from the environment at start-up. */
  datatype Config = Config(
    languageCode: string,
    language: string,
    ttsStyle: Json,
    greetingText: string,
    defaultBotGreetingText: string)

  /** The values used when the environment sets none (the English samples). */
  function EnglishDefaults(): Config
  {
    Config("en-US", "en", JNumber("11"), "Hello", "How may I help you?")
  }

  /** Speech-capture tuning, fixed in both variants; kept as opaque literals. */
  const EndOnSilence: Json := JNumber("1.0")
  const StartTimeout: Json := JNumber("10")

  /** The address of one of this relay's own webhooks on the host that received the request. */
  function HandlerUrl(host: string, path: string): string
  {
    "https://" + host + path
  }

  /** The speech settings of a capture directive: which call legs to listen to, and the locale. */
  datatype Speech = Speech(uuid: seq<string>, language: string)

  /** One call-control directive. Optional parts are left out of the JSON when None. */
  datatype Action =
    | Talk(language: string, text: Option<string>, style: Json, bargeIn: Option<bool>)
    | Input(eventUrl: seq<string>, speech: Speech)
    | Conversation(name: string, startOnEnter: Option<bool>)

  type Ncco = seq<Action>

  /** The speech-capture directive both variants issue: results go to this host's /asr
      webhook, and only the leg `uuid` is listened to. */
  function CaptureSpeech(uuid: string, host: string, cfg: Config): Action
  {
    Input([HandlerUrl(host, "/asr")], Speech([uuid], cfg.languageCode))
  }

  /** On the wire, the capture directive is the literal object both variants write out. */
  lemma CaptureSpeechWireForm(uuid: string, host: string, cfg: Config)
    ensures RenderAction(CaptureSpeech(uuid, host, cfg)) == JObject(map[
      "action" := JString("input"),
      "eventUrl" := JArray([JString("https://" + host + "/asr")]),
      "eventMethod" := JString("POST"),
      "type" := JArray([JString("speech")]),
      "speech" := JObject(map[
        "uuid" := JArray([JString(uuid)]),
        "endOnSilence" := JNumber("1.0"),
        "language" := JString(cfg.languageCode),
        "startTimeout" := JNumber("10")])])
  {
    StringItemsSingleton(HandlerUrl(host, "/asr"));
    StringItemsSingleton(uuid);
  }

  // ----- JSON wire form of the directives -----

  function OptionalStringMember(key: string, v: Option<string>): map<string, Json>
  {
    if v.Some? then map[key := JString(v.value)] else map[]
  }

  function OptionalBoolMember(key: string, v: Option<bool>): map<string, Json>
  {
    if v.Some? then map[key := JBool(v.value)] else map[]
  }

  function RenderAction(a: Action): Json
  {
    match a
    case Talk(language, text, style, bargeIn) =>
      JObject(map["action" := JString("talk"), "language" := JString(language), "style" := style]
              + OptionalStringMember("text", text) + OptionalBoolMember("bargeIn", bargeIn))
    case Input(eventUrl, speech) =>
      JObject(map[
        "action" := JString("input"),
        "eventUrl" := JArray(StringItems(eventUrl)),
        "eventMethod" := JString("POST"),
        "type" := JArray([JString("speech")]),
        "speech" := JObject(map[
          "uuid" := JArray(StringItems(speech.uuid)),
          "endOnSilence" := EndOnSilence,
          "language" := JString(speech.language),
          "startTimeout" := StartTimeout])])
    case Conversation(name, startOnEnter) =>
      JObject(map["action" := JString("conversation"), "name" := JString(name)]
              + OptionalBoolMember("startOnEnter", startOnEnter))
  }

  function ParseSpeech(j: Json): Option<Speech>
  {
    var uuid :- StringArrayField(j, "uuid");
    var language :- StringField(j, "language");
    if Field(j, "endOnSilence") == Some(EndOnSilence) && Field(j, "startTimeout") == Some(StartTimeout)
    then Some(Speech(uuid, language))
    else None
  }

  /** Reads a directive back from its JSON form; None for anything the relay never sends. */
  function ParseAction(j: Json): Option<Action>
  {
    var action :- StringField(j, "action");
    if action == "talk" then
      var language :- StringField(j, "language");
      var text :- OptionalStringField(j, "text");
      var style :- Field(j, "style");
      var bargeIn :- OptionalBoolField(j, "bargeIn");
      Some(Talk(language, text, style, bargeIn))
    else if action == "input" then
      var eventUrl :- StringArrayField(j, "eventUrl");
      var speechJson :- Field(j, "speech");
      var speech :- ParseSpeech(speechJson);
      if Field(j, "eventMethod") == Some(JString("POST")) && Field(j, "type") == Some(JArray([JString("speech")]))
      then Some(Input(eventUrl, speech))
      else None
    else if action == "conversation" then
      var name :- StringField(j, "name");
      var startOnEnter :- OptionalBoolField(j, "startOnEnter");
      Some(Conversation(name, startOnEnter))
    else None
  }

  function RenderItems(n: Ncco): (r: seq<Json>)
    ensures |r| == |n|
  {
    if n == [] then [] else [RenderAction(n[0])] + RenderItems(n[1..])
  }

  /** The i-th item on the wire is the i-th directive, rendered. */
  lemma {:induction false} RenderItemsAt(n: Ncco, i: nat)
    requires i < |n|
    ensures RenderItems(n)[i] == RenderAction(n[i])
    decreases i
  {
    if i > 0 {
      RenderItemsAt(n[1..], i - 1);
    }
  }

  /** An instruction list goes over the wire as a JSON array of directive objects, in order. */
  function RenderNcco(n: Ncco): Json
  {
    JArray(RenderItems(n))
  }

  function ParseItems(items: seq<Json>): Option<Ncco>
  {
    if items == [] then Some([])
    else
      var first :- ParseAction(items[0]);
      var rest :- ParseItems(items[1..]);
      Some([first] + rest)
  }

  function ParseNcco(j: Json): Option<Ncco>
  {
    if j.JArray? then ParseItems(j.items) else None
  }

  lemma TalkRoundTrip(language: string, text: Option<string>, style: Json, bargeIn: Option<bool>)
    ensures ParseAction(RenderAction(Talk(language, text, style, bargeIn))) == Some(Talk(language, text, style, bargeIn))
  {
  }

  lemma InputRoundTrip(eventUrl: seq<string>, speech: Speech)
    ensures ParseAction(RenderAction(Input(eventUrl, speech))) == Some(Input(eventUrl, speech))
  {
    StringItemsRoundTrip(eventUrl);
    StringItemsRoundTrip(speech.uuid);
    var j := RenderAction(Input(eventUrl, speech));
    assert StringField(j, "action") == Some("input");
    assert StringArrayField(j, "eventUrl") == Some(eventUrl);
    assert ParseSpeech(j.fields["speech"]) == Some(speech);
  }

  lemma ConversationRoundTrip(name: string, startOnEnter: Option<bool>)
    ensures ParseAction(RenderAction(Conversation(name, startOnEnter))) == Some(Conversation(name, startOnEnter))
  {
  }

  /** Every directive reads back from its JSON form unchanged. */
  lemma ActionRoundTrip(a: Action)
    ensures ParseAction(RenderAction(a)) == Some(a)
  {
    match a
    case Talk(language, text, style, bargeIn) => TalkRoundTrip(language, text, style, bargeIn);
    case Input(eventUrl, speech) => InputRoundTrip(eventUrl, speech);
    case Conversation(name, startOnEnter) => ConversationRoundTrip(name, startOnEnter);
  }

  /** Nothing of an instruction list is lost on the wire. */
  lemma {:induction false} NccoRoundTrip(n: Ncco)
    ensures ParseNcco(RenderNcco(n)) == Some(n)
  {
    if n != [] {
      var items := RenderItems(n);
      assert items[1..] == RenderItems(n[1..]);
      ActionRoundTrip(n[0]);
      NccoRoundTrip(n[1..]);
      assert [n[0]] + n[1..] == n;
    }
  }

  // ----- Requests to the text bot -----

  /** The body the relay posts to the text bot: the call's id for correlation, the caller's
      words, the bot language, and where the bot must post its reply. */
  datatype BotRequest = BotRequest(id: string, textRequest: string, language: string, webhookUrl: string)

  function RenderBotRequest(b: BotRequest): Json
  {
    JObject(map[
      "id" := JString(b.id),
      "textRequest" := JString(b.textRequest),
      "language" := JString(b.language),
      "webhookUrl" := JString(b.webhookUrl)])
  }

  function ParseBotRequest(j: Json): Option<BotRequest>
  {
    var id :- StringField(j, "id");
    var textRequest :- StringField(j, "textRequest");
    var language :- StringField(j, "language");
    var webhookUrl :- StringField(j, "webhookUrl");
    Some(BotRequest(id, textRequest, language, webhookUrl))
  }

  lemma BotRequestRoundTrip(b: BotRequest)
    ensures ParseBotRequest(RenderBotRequest(b)) == Some(b)
  {
  }

  // ----- Outbound effects -----

  /** Text-to-speech played into a live call. */
  datatype TtsRequest = TtsRequest(text: Option<string>, language: string, style: Json, bargeIn: bool)

  /** What a handler asks of the outside world after acknowledging its webhook. */
  datatype Effect =
    | Transfer(uuid: string, ncco: Ncco)        // replace the call's instruction list
    | ForwardToBot(body: BotRequest)            // post the caller's words to the text bot
    | PlayTts(uuid: string, tts: TtsRequest)    // speak into the call
    | StopTts(channelId: string)                // interrupt speech on a leg

  // ----- Speech-recognition payloads -----

  /** One recognition hypothesis; its text may be null or missing (None). */
  datatype Hypothesis = Hypothesis(text: Option<string>)

  /** The `results` member of a speech payload: missing altogether, present but null,
      or an array of hypotheses. */
  datatype ResultsField = NoResultsMember | NullResults | Results(items: seq<Hypothesis>)

  /** The `speech` object of a recognition webhook. */
  datatype SpeechPayload = SpeechPayload(results: ResultsField, timeoutReason: Option<string>, error: Option<string>)

  /** How both variants read a speech payload: nothing was heard, or the first
      hypothesis (whose text may still be empty or missing). */
  datatype Recognition = NoSpeech | Heard(transcript: Option<string>)

  function Recognize(speech: SpeechPayload): (r: Recognition)
    ensures r.Heard? <==> speech.results.Results? && |speech.results.items| > 0
    ensures r.Heard? ==> r.transcript == speech.results.items[0].text
  {
    match speech.results
    case NoResultsMember => NoSpeech
    case NullResults => NoSpeech
    case Results(items) => if |items| < 1 then NoSpeech else Heard(items[0].text)
  }

  /** The timeout reason and the error message are only logged: they never change the outcome. */
  lemma RecognizeIgnoresDiagnostics(speech: SpeechPayload, timeoutReason: Option<string>, error: Option<string>)
    ensures Recognize(speech.(timeoutReason := timeoutReason, error := error)) == Recognize(speech)
  {
  }
}
