# Voice relay for a text bot: the per-call webhook decision layer

This project models the call-turn logic of a webhook relay. The relay lets a phone caller
talk to a text chatbot. The voice platform calls the relay's webhooks: call answered,
lifecycle events, speech-recognition results and real-time events. The bot posts its
replies back to the relay. For each webhook the relay decides three things: which
call-control instruction list (NCCO) to answer with, which outbound effect to trigger, and,
in one variant, how the per-call state changes.

Two variants are modelled, one module each:

- `GenericRelay` (`voice-on-text-bot-app-generic.js`), the conference-bridge variant. On
  answer the call is bridged into the conversation `conference_<uuid>`. Each later prompt
  is a transfer of the call to the list [talk, input, conversation] built by `doNewAsr`.
  Per-call state lives in the application settings under `botResponse_<uuid>` (the text
  replayed when nothing is heard) and `firstTransferDone_<uuid>` (a one-time flag). The
  settings are the field `settings: map<string, string>` of class `RelayApp`. Its handler
  methods are proved equal to pure step functions (`AnswerUpdate`, `EventUpdate`,
  `BotReplyUpdate`, `AsrEffect`). The lemmas about the relay's behaviour are stated on those
  functions, including lemmas over whole sequences of webhooks (`Run`).
- `SimpleBotRelay` (`voice-on-text-bot-app-with-simple-bot.js`), the stateless variant. Each
  handler is a pure function: payload in, response list and at most one effect out.

The shared vocabulary is in `CallControl`:
- the directives `Talk`, `Input` and `Conversation`;
- their JSON wire form (`RenderAction`, `RenderNcco`), with parsers and round-trip lemmas;
- the speech payload and how both variants read it (`Recognize`);
- the outbound effects `Transfer(uuid, ncco)`, `ForwardToBot(body)`, `PlayTts(uuid, tts)`
  and `StopTts(channel)`.

`Json` holds the JSON value type. `Wrappers` holds `Option`.

The calls into the voice platform's SDK and the HTTP post to the bot are modelled as the
`Effect` values the handlers return. Their outcomes are not modelled (see "## Left out").
The host name, the locale settings, the voice style and the texts are
parameters (`host`, `Config`). `EnglishDefaults` gives the values used when the environment
sets none; `EnglishSilenceAfterAnswer` uses them. `endOnSilence = 1.0` and `startTimeout = 10` are opaque JSON number literals.

One might expect a relay like this to track a phase per call, to always have a text to
replay, and to drop bot replies for finished calls. The generic variant's own comments point
that way: the seeding at line 179 is "in case text bot is unresponsive", and line 246 says a
default response for a silent bot is still "TO DO". The model follows what the code does:
- The code keeps no call phase (Greeting, AwaitingSpeech, ...). The generic variant stores
  only the two settings keys. The simple variant stores nothing.
- In the generic variant, a no-speech result replays whatever the settings hold. For a call
  that was never answered, or that has completed, that is undefined: the talk directive then
  has no `text` member (`SilenceAfterCompletionHasNoText`). It is not a default greeting.
- A bot reply after the call completed is not swallowed. It writes the call's fallback text
  back and still issues a transfer (`LateReplyRecreatesEntry`).
- Nothing ever writes `'no'` into `firstTransferDone_<uuid>`. So the guard of the transfer
  branch never holds in any run from a fresh start (`TransferGuardNeverHolds`).
- Barge-in (`/rtc` → StopTts) exists only in the simple variant, and it does not depend on any
  phase.

## Model

| member | source | states |
|---|---|---|
| `CallControl.CaptureSpeechWireForm` | voice-on-text-bot-app-with-simple-bot.js:169-181 | The capture directive is sent as an object with action "input", eventUrl ["https://"+host+"/asr"], method POST, type ["speech"], and speech settings: uuid [uuid], endOnSilence 1.0, the language code, and startTimeout 10 |
| `CallControl.ActionRoundTrip` | voice-on-text-bot-app-generic.js:323-349 | Every talk, input or conversation directive reads back unchanged from its JSON object, including absent optional members |
| `CallControl.NccoRoundTrip` | voice-on-text-bot-app-with-simple-bot.js:162-184 | An instruction list reads back unchanged from the JSON array sent as the webhook response, in the same order |
| `CallControl.BotRequestRoundTrip` | voice-on-text-bot-app-with-simple-bot.js:246-252 | The bot request body {id, textRequest, language, webhookUrl} reads back unchanged from its JSON object |
| `CallControl.Recognize` | voice-on-text-bot-app-generic.js:236-254 | Speech counts as heard exactly when a `results` member is present, non-null and non-empty. The transcript is then `results[0].text` |
| `CallControl.RecognizeIgnoresDiagnostics` | voice-on-text-bot-app-generic.js:268-283 | The timeout reason and error members never change how a payload is classified |
| `GenericRelay.KeysDistinct` | voice-on-text-bot-app-generic.js:179-221 | Settings keys of different calls never coincide, and a `botResponse_` key never equals a `firstTransferDone_` key |
| `GenericRelay.ConferenceNameInjective` | voice-on-text-bot-app-generic.js:184 | Different calls are bridged into different conversations |
| `GenericRelay.AnswerWireForm` | voice-on-text-bot-app-generic.js:181-189 | The answer response is exactly one conversation object named "conference_"+uuid with startOnEnter true |
| `GenericRelay.AnswerSeedsFallback` | voice-on-text-bot-app-generic.js:179 | After answer, the call's fallback text is the default bot greeting. Every other call's fallback and every flag are unchanged |
| `GenericRelay.CompletedErasesCall` | voice-on-text-bot-app-generic.js:218-223 | A completed status leaves the call with no fallback text and no flag. Every other call's entries are unchanged |
| `GenericRelay.TransferOnlyAdvancesNo` | voice-on-text-bot-app-generic.js:204-216 | Without a completed status, a transfer event turns the flag 'no' into 'yes'. Any other flag value, absent included, stays as it was. Other calls' flags and all fallback texts are unchanged |
| `GenericRelay.EventIdempotent` | voice-on-text-bot-app-generic.js:196-225 | Handling the same event twice leaves the same settings as handling it once |
| `GenericRelay.NewAsrWireForm` | voice-on-text-bot-app-generic.js:317-351 | A new turn is exactly three objects, in this order. First a talk with the language code, the style, bargeIn true, and the text (the text member is omitted when the text is undefined). Then the capture object. Then a conversation named "conference_"+uuid |
| `GenericRelay.NewAsrRejoinsAnswerConference` | voice-on-text-bot-app-generic.js:315-351 | A new turn speaks the given text, interruptibly, then captures this call's speech for this host's /asr. It rejoins the same conversation the answer response joined |
| `GenericRelay.AsrEffect` | voice-on-text-bot-app-generic.js:236-284 | A transfer is triggered exactly when nothing was heard. It is `doNewAsr(uuid, stored fallback, host)`, where the stored fallback may be undefined. A transcript triggers nothing |
| `GenericRelay.BotReplyStoresReply` | voice-on-text-bot-app-generic.js:307 | A bot reply becomes the call's fallback text, and an undefined reply erases it. Other calls' fallbacks and all flags are unchanged |
| `GenericRelay.SilenceAfterAnswerReplaysGreeting` | voice-on-text-bot-app-generic.js:247-250 | Silence right after answer replays the default bot greeting |
| `GenericRelay.EnglishSilenceAfterAnswer` | voice-on-text-bot-app-generic.js:88-93 | With the default English settings, silence right after answer transfers the call to a turn whose talk says "How may I help you?" in en-US, style 11, interruptibly |
| `GenericRelay.SilenceAfterReplyRepeatsIt` | voice-on-text-bot-app-generic.js:307-309 | Silence after a bot reply issues again exactly the transfer that reply issued |
| `GenericRelay.SilenceAfterCompletionHasNoText` | voice-on-text-bot-app-generic.js:279-282 | Silence on a completed call still yields a transfer, with undefined talk text |
| `GenericRelay.LateReplyRecreatesEntry` | voice-on-text-bot-app-generic.js:290-309 | A bot reply after completion writes the call's fallback text back into the settings (a defined reply recreates the entry) and still issues the transfer `doNewAsr` of that reply |
| `GenericRelay.StepKeepsNoTransferFlags` | voice-on-text-bot-app-generic.js:204-223 | No handler creates a transfer flag where there is none |
| `GenericRelay.RunKeepsNoTransferFlags` | voice-on-text-bot-app-generic.js:196-225 | No sequence of webhooks creates a transfer flag where there is none |
| `GenericRelay.TransferGuardNeverHolds` | voice-on-text-bot-app-generic.js:205 | After any sequence of webhooks from a fresh start, the flag is absent. A transfer event without a completed status changes nothing |
| `GenericRelay.StepKeepsOthersFallback` | voice-on-text-bot-app-generic.js:179-309 | A webhook that neither answers, completes nor replies to a call leaves that call's fallback text unchanged |
| `GenericRelay.FallbackPersists` | voice-on-text-bot-app-generic.js:247 | A call's fallback text survives any sequence of webhooks that do not answer, complete or reply to that call. So a no-speech result replays the latest reply |
| `GenericRelay.RelayApp.constructor` | voice-on-text-bot-app-generic.js:9 | A fresh application holds none of the relay's settings |
| `GenericRelay.RelayApp.Answer` | voice-on-text-bot-app-generic.js:173-191 | Updates the settings as `AnswerUpdate` does and returns the answer instruction list |
| `GenericRelay.RelayApp.Event` | voice-on-text-bot-app-generic.js:196-225 | Updates the settings as `EventUpdate` does: the transfer branch first, then the completed branch |
| `GenericRelay.RelayApp.Asr` | voice-on-text-bot-app-generic.js:229-286 | Reads the settings without changing them and returns the effect `AsrEffect` describes |
| `GenericRelay.RelayApp.BotReply` | voice-on-text-bot-app-generic.js:290-311 | Stores the reply as the call's fallback text (erasing it when the reply is undefined) and returns `doNewAsr` of that same text |
| `SimpleBotRelay.AnswerWireForm` | voice-on-text-bot-app-with-simple-bot.js:162-184 | The answer response is a talk object (greeting, language code, style, no bargeIn) followed by exactly one capture object for this call and this host's /asr |
| `SimpleBotRelay.Asr` | voice-on-text-bot-app-with-simple-bot.js:200-279 | The response is always one capture directive and never a talk. A bot request is issued exactly when results has items and `results[0].text` is neither "" nor null. It is {id: uuid, textRequest: the transcript verbatim, language, webhookUrl: "https://"+host+"/botreply"} |
| `SimpleBotRelay.AsrResponseIgnoresPayload` | voice-on-text-bot-app-with-simple-bot.js:207-223 | The recognition response does not depend on the payload, and it equals the tail of the answer response |
| `SimpleBotRelay.SilenceNeverReachesBot` | voice-on-text-bot-app-with-simple-bot.js:227-236 | A payload without results, with null results or with empty results (timeouts and errors included) issues no bot request |
| `SimpleBotRelay.BotRequestWireForm` | voice-on-text-bot-app-with-simple-bot.js:246-252 | The bot request body sent is {"id": uuid, "textRequest": results[0].text, "language": language, "webhookUrl": "https://"+host+"/botreply"} |
| `SimpleBotRelay.Rtc` | voice-on-text-bot-app-with-simple-bot.js:283-295 | StopTts is issued exactly when the type is 'audio:speaking:on', and it targets the event's channel id |
| `SimpleBotRelay.BotReply` | voice-on-text-bot-app-with-simple-bot.js:299-323 | A bot reply plays text-to-speech on call `id`: the reply text, the language code, the style, bargeIn true |
| `SimpleBotRelay.ReplyReachesCaller` | voice-on-text-bot-app-with-simple-bot.js:246-321 | A reply carrying the forwarded request's id is spoken into the call whose words were forwarded. The request names this host's /botreply |

## Left out

- HTTP plumbing: Express setup, CORS headers, body parsing, the static router,
  `app.listen`, and the immediate acknowledgements (`'Ok'`, `{}`). The handlers acknowledge
  before deciding anything, so the acknowledgement carries no decision.
- `/makecall` and `/placecall` in both variants. They only wrap the outbound-call SDK call or
  an HTTP post, with nothing to decide.
- `reqCallback` and all console logging. The timeout reason and the error message of a speech
  payload are only logged; `RecognizeIgnoresDiagnostics` shows they do not matter.
- The simple variant's `/event`. It only acknowledges.
- SDK and HTTP calls (`calls.update`, `playTTS`, `stopTTS`, the post to the bot). They are
  returned as `Effect` values; their outcomes are not modelled. In the source, a failed
  `calls.update` is logged when its error has a `body`; otherwise reading
  `err.body.invalid_parameters` at line 353 throws inside the callback. Failures of `playTTS` and `stopTTS` are dropped silently by their
  `.catch`. The post to the bot is awaited with no handler: a failed post rejects the
  handler's promise and nothing catches it. Concurrency between webhooks is not modelled:
  handlers are sequential steps.
- Client construction, credentials and environment configuration. `wakeUpBotText` is declared
  but never used, so `Config` omits it.
- The generic `/botreply` reply text. As written, line 305 reads the undeclared
  `botTextReponse`, so the handler throws a ReferenceError after acknowledging: it stores
  nothing and transfers nothing. The model is the handler once the integrator fills in the
  reply, taken as the parameter `reply` (None when undefined).
- The model assumes `uuid`, the bot reply's `id` and the rtc `body.channel.id` are strings,
  and that `results` is null or an array of objects. In the source, a missing `uuid` becomes
  the text "undefined" in keys and names, and a missing `body.channel.id` makes the relay
  call `stopTTS(undefined)`. A string or number hypothesis gives an undefined transcript. A string `results` goes
  through `.length`. None of these is modelled.
- Payloads that make the JavaScript throw after acknowledging are not modelled: a missing
  `speech` object, and an `audio:speaking:on` event without `body.channel`.
- `SimpleBotRelay.Asr`: a transcript is modelled as a string or null/missing. Loose `!=`
  comparisons with `""` for non-string values (a number 0, for instance) are not modelled.
- `SimpleBotRelay.Rtc`: the event type is modelled as a string or missing. The loose `==`
  with a non-string type (an array `["audio:speaking:on"]`, for instance) is not modelled.
- Writing `undefined` to a setting is modelled as removing the key. Reads through `app.get`
  cannot tell the two apart. The application's own unrelated settings are not modelled.
- The exact JSON text (member order, number formatting). JSON objects are maps, and numbers
  are their literals.
