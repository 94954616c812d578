/** The conference-bridge variant of the relay. The call is bridged into a named
    conversation on answer; every later prompt is a transfer of the call to a fresh
    instruction list (speak, capture speech, rejoin the conversation). Per-call state lives
    in the application settings under the keys "botResponse_<uuid>" (the text to replay
    when nothing is heard) and "firstTransferDone_<uuid>" (a one-time flag). */
module GenericRelay {
  import opened Wrappers
  import opened Json
  import opened CallControl

  /** The part of the application settings this relay writes. A missing key reads as
      undefined, which is also what writing undefined to a key amounts to. */
  type Settings = map<string, string>

  const BotResponsePrefix: string := "botResponse_"
  const FirstTransferDonePrefix: string := "firstTransferDone_"

  function BotResponseKey(uuid: string): string
  {
    BotResponsePrefix + uuid
  }

  function FirstTransferDoneKey(uuid: string): string
  {
    FirstTransferDonePrefix + uuid
  }

  /** Reading a setting. */
  function Lookup(s: Settings, key: string): Option<string>
  {
    if key in s then Some(s[key]) else None
  }

  /** The text replayed for call `uuid` when nothing is heard. */
  function FallbackText(s: Settings, uuid: string): Option<string>
  {
    Lookup(s, BotResponseKey(uuid))
  }

  /** The one-time transfer flag of call `uuid`. */
  function TransferFlag(s: Settings, uuid: string): Option<string>
  {
    Lookup(s, FirstTransferDoneKey(uuid))
  }

  lemma PrefixCancel(p: string, u: string, v: string)
    requires p + u == p + v
    ensures u == v
  {
    assert u == (p + u)[|p|..];
    assert v == (p + v)[|p|..];
  }

  /** Two calls never share a settings key, and the two kinds of key never collide. */
  lemma KeysDistinct(u: string, v: string)
    ensures BotResponseKey(u) != FirstTransferDoneKey(v)
    ensures BotResponseKey(u) == BotResponseKey(v) ==> u == v
    ensures FirstTransferDoneKey(u) == FirstTransferDoneKey(v) ==> u == v
  {
    assert BotResponseKey(u)[0] == 'b';
    assert FirstTransferDoneKey(v)[0] == 'f';
    if BotResponseKey(u) == BotResponseKey(v) {
      PrefixCancel(BotResponsePrefix, u, v);
    }
    if FirstTransferDoneKey(u) == FirstTransferDoneKey(v) {
      PrefixCancel(FirstTransferDonePrefix, u, v);
    }
  }

  /** The conversation (conference room) call `uuid` is bridged into. */
  function ConferenceName(uuid: string): string
  {
    "conference_" + uuid
  }

  /** Different calls are bridged into different conversations. */
  lemma ConferenceNameInjective(u: string, v: string)
    requires ConferenceName(u) == ConferenceName(v)
    ensures u == v
  {
    PrefixCancel("conference_", u, v);
  }

  // ----- /answer -----

  /** The answer response: join the call's own conversation, starting it on entry. */
  function AnswerNcco(uuid: string): Ncco
  {
    [Conversation(ConferenceName(uuid), Some(true))]
  }

  /** On the wire the answer response is exactly one conversation object, named after
      the call and started on entry. */
  lemma AnswerWireForm(uuid: string)
    ensures RenderNcco(AnswerNcco(uuid)) == JArray([JObject(map[
      "action" := JString("conversation"),
      "name" := JString("conference_" + uuid),
      "startOnEnter" := JBool(true)])])
  {
    var n := AnswerNcco(uuid);
    RenderItemsAt(n, 0);
    assert RenderItems(n) == [RenderAction(n[0])];
    assert ConferenceName(uuid) == "conference_" + uuid;
    var base := map["action" := JString("conversation"), "name" := JString("conference_" + uuid)];
    assert OptionalBoolMember("startOnEnter", Some(true)) == map["startOnEnter" := JBool(true)];
    assert base + map["startOnEnter" := JBool(true)] == base["startOnEnter" := JBool(true)];
  }

  /** The answer handler seeds the fallback text with the default bot greeting. */
  function AnswerUpdate(s: Settings, uuid: string, cfg: Config): Settings
  {
    s[BotResponseKey(uuid) := cfg.defaultBotGreetingText]
  }

  lemma AnswerSeedsFallback(s: Settings, uuid: string, cfg: Config)
    ensures FallbackText(AnswerUpdate(s, uuid, cfg), uuid) == Some(cfg.defaultBotGreetingText)
    ensures forall v :: v != uuid ==> FallbackText(AnswerUpdate(s, uuid, cfg), v) == FallbackText(s, v)
    ensures forall v :: TransferFlag(AnswerUpdate(s, uuid, cfg), v) == TransferFlag(s, v)
  {
    forall v
      ensures v != uuid ==> FallbackText(AnswerUpdate(s, uuid, cfg), v) == FallbackText(s, v)
      ensures TransferFlag(AnswerUpdate(s, uuid, cfg), v) == TransferFlag(s, v)
    {
      KeysDistinct(uuid, v);
    }
  }

  // ----- /event -----

  /** The members of a lifecycle event the handler looks at. */
  datatype CallEvent = CallEvent(uuid: string, eventType: Option<string>, status: Option<string>)

  /** A transfer event turns the flag from 'no' to 'yes'; then a completed status
      erases both entries of the call. */
  function EventUpdate(s: Settings, ev: CallEvent): Settings
  {
    var afterTransfer :=
      if ev.eventType == Some("transfer") && Lookup(s, FirstTransferDoneKey(ev.uuid)) == Some("no")
      then s[FirstTransferDoneKey(ev.uuid) := "yes"]
      else s;
    if ev.status == Some("completed")
    then afterTransfer - {BotResponseKey(ev.uuid), FirstTransferDoneKey(ev.uuid)}
    else afterTransfer
  }

  lemma CompletedErasesCall(s: Settings, ev: CallEvent)
    requires ev.status == Some("completed")
    ensures FallbackText(EventUpdate(s, ev), ev.uuid) == None
    ensures TransferFlag(EventUpdate(s, ev), ev.uuid) == None
    ensures forall v :: v != ev.uuid ==>
      FallbackText(EventUpdate(s, ev), v) == FallbackText(s, v) &&
      TransferFlag(EventUpdate(s, ev), v) == TransferFlag(s, v)
  {
    forall v | v != ev.uuid
      ensures FallbackText(EventUpdate(s, ev), v) == FallbackText(s, v)
      ensures TransferFlag(EventUpdate(s, ev), v) == TransferFlag(s, v)
    {
      KeysDistinct(ev.uuid, v);
      KeysDistinct(v, ev.uuid);
    }
  }

  lemma TransferOnlyAdvancesNo(s: Settings, ev: CallEvent)
    requires ev.status != Some("completed")
    ensures TransferFlag(EventUpdate(s, ev), ev.uuid) ==
      if ev.eventType == Some("transfer") && TransferFlag(s, ev.uuid) == Some("no") then Some("yes")
      else TransferFlag(s, ev.uuid)
    ensures forall v :: v != ev.uuid ==> TransferFlag(EventUpdate(s, ev), v) == TransferFlag(s, v)
    ensures forall v :: FallbackText(EventUpdate(s, ev), v) == FallbackText(s, v)
  {
    forall v
      ensures v != ev.uuid ==> TransferFlag(EventUpdate(s, ev), v) == TransferFlag(s, v)
      ensures FallbackText(EventUpdate(s, ev), v) == FallbackText(s, v)
    {
      KeysDistinct(v, ev.uuid);
      KeysDistinct(ev.uuid, v);
    }
  }

  /** Delivering the same event twice has the effect of delivering it once. */
  lemma EventIdempotent(s: Settings, ev: CallEvent)
    ensures EventUpdate(EventUpdate(s, ev), ev) == EventUpdate(s, ev)
  {
    KeysDistinct(ev.uuid, ev.uuid);
    var once := EventUpdate(s, ev);
    if ev.status != Some("completed") {
      assert ev.eventType == Some("transfer") && Lookup(s, FirstTransferDoneKey(ev.uuid)) == Some("no")
        ==> Lookup(once, FirstTransferDoneKey(ev.uuid)) == Some("yes");
    }
  }

  // ----- doNewAsr -----

  /** The instruction list a call is transferred to for its next turn: speak the text
      (interruptible), capture speech for this call, then rejoin its conversation. */
  function NewAsrNcco(uuid: string, ttsText: Option<string>, host: string, cfg: Config): Ncco
  {
    [ Talk(cfg.languageCode, ttsText, cfg.ttsStyle, Some(true)),
      CaptureSpeech(uuid, host, cfg),
      Conversation(ConferenceName(uuid), None) ]
  }

  function DoNewAsr(uuid: string, ttsText: Option<string>, host: string, cfg: Config): Effect
  {
    Transfer(uuid, NewAsrNcco(uuid, ttsText, host, cfg))
  }

  /** The directives of a new turn, as the source writes them out; the text member is
      left out of the JSON when the text is undefined. */
  lemma NewAsrWireForm(uuid: string, ttsText: Option<string>, host: string, cfg: Config)
    ensures var j := RenderNcco(NewAsrNcco(uuid, ttsText, host, cfg));
      j.JArray? && |j.items| == 3 &&
      j.items[0] == JObject(map[
        "action" := JString("talk"),
        "language" := JString(cfg.languageCode),
        "style" := cfg.ttsStyle,
        "bargeIn" := JBool(true)] + OptionalStringMember("text", ttsText)) &&
      j.items[1] == RenderAction(CaptureSpeech(uuid, host, cfg)) &&
      j.items[2] == JObject(map["action" := JString("conversation"), "name" := JString("conference_" + uuid)])
  {
    var n := NewAsrNcco(uuid, ttsText, host, cfg);
    RenderItemsAt(n, 0);
    RenderItemsAt(n, 1);
    RenderItemsAt(n, 2);
    var talk := map["action" := JString("talk"), "language" := JString(cfg.languageCode), "style" := cfg.ttsStyle];
    assert talk + OptionalStringMember("text", ttsText) + OptionalBoolMember("bargeIn", Some(true))
        == talk["bargeIn" := JBool(true)] + OptionalStringMember("text", ttsText);
  }

  /** A new turn stays in the conversation the call joined on answer, and its speech
      results come back to this host's recognition webhook for the same call. */
  lemma NewAsrRejoinsAnswerConference(uuid: string, ttsText: Option<string>, host: string, cfg: Config)
    ensures var n := NewAsrNcco(uuid, ttsText, host, cfg);
      |n| == 3 && n[0].Talk? && n[0].text == ttsText && n[0].bargeIn == Some(true) &&
      n[1].Input? && n[1].eventUrl == [HandlerUrl(host, "/asr")] && n[1].speech.uuid == [uuid] &&
      n[2].Conversation? && n[2].name == AnswerNcco(uuid)[0].name
  {
  }

  // ----- /asr -----

  /** When nothing was heard, the call is transferred to a new turn replaying the stored
      text (which is undefined if the call was never answered or has completed); a
      transcript triggers nothing. */
  function AsrEffect(s: Settings, uuid: string, speech: SpeechPayload, host: string, cfg: Config): (e: Option<Effect>)
    ensures e.Some? <==> Recognize(speech).NoSpeech?
    ensures e.Some? ==> e.value == DoNewAsr(uuid, FallbackText(s, uuid), host, cfg)
  {
    match speech.results
    case Results(items) =>
      if |items| < 1 then Some(DoNewAsr(uuid, Lookup(s, BotResponseKey(uuid)), host, cfg))
      else None
    case _ => Some(DoNewAsr(uuid, Lookup(s, BotResponseKey(uuid)), host, cfg))
  }

  // ----- /botreply -----

  /** The bot reply becomes the fallback text; an undefined reply (None) erases it. */
  function BotReplyUpdate(s: Settings, id: string, reply: Option<string>): Settings
  {
    if reply.Some? then s[BotResponseKey(id) := reply.value] else s - {BotResponseKey(id)}
  }

  function BotReplyEffect(id: string, reply: Option<string>, host: string, cfg: Config): Effect
  {
    DoNewAsr(id, reply, host, cfg)
  }

  lemma BotReplyStoresReply(s: Settings, id: string, reply: Option<string>)
    ensures FallbackText(BotReplyUpdate(s, id, reply), id) == reply
    ensures forall v :: v != id ==> FallbackText(BotReplyUpdate(s, id, reply), v) == FallbackText(s, v)
    ensures forall v :: TransferFlag(BotReplyUpdate(s, id, reply), v) == TransferFlag(s, v)
  {
    forall v
      ensures v != id ==> FallbackText(BotReplyUpdate(s, id, reply), v) == FallbackText(s, v)
      ensures TransferFlag(BotReplyUpdate(s, id, reply), v) == TransferFlag(s, v)
    {
      KeysDistinct(id, v);
    }
  }

  // ----- Fallback policy across handlers -----

  /** Silence right after answering replays the default bot greeting. */
  lemma SilenceAfterAnswerReplaysGreeting(s: Settings, uuid: string, speech: SpeechPayload, host: string, cfg: Config)
    requires Recognize(speech).NoSpeech?
    ensures AsrEffect(AnswerUpdate(s, uuid, cfg), uuid, speech, host, cfg)
         == Some(DoNewAsr(uuid, Some(cfg.defaultBotGreetingText), host, cfg))
  {
    AnswerSeedsFallback(s, uuid, cfg);
  }

  /** With the English defaults, silence right after answer transfers the call to a turn
      that says "How may I help you?" in en-US with voice style 11. */
  lemma EnglishSilenceAfterAnswer(s: Settings, uuid: string, speech: SpeechPayload, host: string)
    requires Recognize(speech).NoSpeech?
    ensures var e := AsrEffect(AnswerUpdate(s, uuid, EnglishDefaults()), uuid, speech, host, EnglishDefaults());
      e.Some? && e.value.Transfer? && e.value.uuid == uuid && |e.value.ncco| == 3 &&
      e.value.ncco[0] == Talk("en-US", Some("How may I help you?"), JNumber("11"), Some(true))
  {
    SilenceAfterAnswerReplaysGreeting(s, uuid, speech, host, EnglishDefaults());
  }

  /** Silence after a bot reply issues again exactly the turn that reply issued. */
  lemma SilenceAfterReplyRepeatsIt(s: Settings, id: string, reply: Option<string>, speech: SpeechPayload, host: string, cfg: Config)
    requires Recognize(speech).NoSpeech?
    ensures AsrEffect(BotReplyUpdate(s, id, reply), id, speech, host, cfg) == Some(BotReplyEffect(id, reply, host, cfg))
  {
    BotReplyStoresReply(s, id, reply);
  }

  /** Silence on a completed call still transfers it, with an undefined talk text. */
  lemma SilenceAfterCompletionHasNoText(s: Settings, ev: CallEvent, speech: SpeechPayload, host: string, cfg: Config)
    requires ev.status == Some("completed") && Recognize(speech).NoSpeech?
    ensures AsrEffect(EventUpdate(s, ev), ev.uuid, speech, host, cfg) == Some(DoNewAsr(ev.uuid, None, host, cfg))
  {
    CompletedErasesCall(s, ev);
  }

  /** A bot reply arriving after the call completed is not swallowed: a defined reply is
      stored under the call again, and a transfer is issued either way. */
  lemma LateReplyRecreatesEntry(s: Settings, ev: CallEvent, reply: Option<string>, host: string, cfg: Config)
    requires ev.status == Some("completed")
    ensures FallbackText(EventUpdate(s, ev), ev.uuid) == None
    ensures FallbackText(BotReplyUpdate(EventUpdate(s, ev), ev.uuid, reply), ev.uuid) == reply
    ensures BotReplyEffect(ev.uuid, reply, host, cfg) == Transfer(ev.uuid, NewAsrNcco(ev.uuid, reply, host, cfg))
  {
    CompletedErasesCall(s, ev);
    BotReplyStoresReply(EventUpdate(s, ev), ev.uuid, reply);
  }

  // ----- Sequences of webhooks -----

  /** One inbound webhook, reduced to what changes the settings. */
  datatype Request =
    | AnswerRequest(uuid: string)
    | EventRequest(event: CallEvent)
    | AsrRequest(uuid: string, speech: SpeechPayload)
    | BotReplyRequest(id: string, reply: Option<string>)

  function Step(s: Settings, req: Request, cfg: Config): Settings
  {
    match req
    case AnswerRequest(uuid) => AnswerUpdate(s, uuid, cfg)
    case EventRequest(ev) => EventUpdate(s, ev)
    case AsrRequest(_, _) => s
    case BotReplyRequest(id, reply) => BotReplyUpdate(s, id, reply)
  }

  function Run(s: Settings, reqs: seq<Request>, cfg: Config): Settings
    decreases |reqs|
  {
    if reqs == [] then s else Run(Step(s, reqs[0], cfg), reqs[1..], cfg)
  }

  /** No call has a transfer flag. */
  ghost predicate NoTransferFlags(s: Settings)
  {
    forall u :: TransferFlag(s, u) == None
  }

  lemma StepKeepsNoTransferFlags(s: Settings, req: Request, cfg: Config)
    requires NoTransferFlags(s)
    ensures NoTransferFlags(Step(s, req, cfg))
  {
    match req
    case AnswerRequest(uuid) => AnswerSeedsFallback(s, uuid, cfg);
    case EventRequest(ev) =>
      if ev.status == Some("completed") {
        CompletedErasesCall(s, ev);
      } else {
        TransferOnlyAdvancesNo(s, ev);
        assert TransferFlag(s, ev.uuid) == None;
      }
    case AsrRequest(_, _) =>
    case BotReplyRequest(id, reply) => BotReplyStoresReply(s, id, reply);
  }

  lemma {:induction false} RunKeepsNoTransferFlags(s: Settings, reqs: seq<Request>, cfg: Config)
    requires NoTransferFlags(s)
    ensures NoTransferFlags(Run(s, reqs, cfg))
    decreases |reqs|
  {
    if reqs != [] {
      StepKeepsNoTransferFlags(s, reqs[0], cfg);
      RunKeepsNoTransferFlags(Step(s, reqs[0], cfg), reqs[1..], cfg);
    }
  }

  /** Nothing ever writes 'no' into a transfer flag, so after any sequence of webhooks
      from a fresh start a transfer event changes no flag: its guard never holds. */
  lemma TransferGuardNeverHolds(reqs: seq<Request>, cfg: Config, ev: CallEvent)
    requires ev.status != Some("completed")
    ensures TransferFlag(Run(map[], reqs, cfg), ev.uuid) == None
    ensures EventUpdate(Run(map[], reqs, cfg), ev) == Run(map[], reqs, cfg)
  {
    assert NoTransferFlags(map[]) by {
      forall u ensures TransferFlag(map[], u) == None { }
    }
    RunKeepsNoTransferFlags(map[], reqs, cfg);
  }

  /** Whether a webhook writes or erases the fallback text of call `id`. */
  predicate Touches(req: Request, id: string)
  {
    match req
    case AnswerRequest(uuid) => uuid == id
    case EventRequest(ev) => ev.uuid == id && ev.status == Some("completed")
    case AsrRequest(_, _) => false
    case BotReplyRequest(rid, _) => rid == id
  }

  lemma StepKeepsOthersFallback(s: Settings, req: Request, cfg: Config, id: string)
    requires !Touches(req, id)
    ensures FallbackText(Step(s, req, cfg), id) == FallbackText(s, id)
  {
    match req
    case AnswerRequest(uuid) => AnswerSeedsFallback(s, uuid, cfg);
    case EventRequest(ev) =>
      if ev.status == Some("completed") {
        CompletedErasesCall(s, ev);
      } else {
        TransferOnlyAdvancesNo(s, ev);
      }
    case AsrRequest(_, _) =>
    case BotReplyRequest(rid, reply) => BotReplyStoresReply(s, rid, reply);
  }

  /** The fallback text of a call survives every webhook that neither answers that call,
      nor completes it, nor carries a bot reply for it: a reply keeps being replayed until
      the next one. */
  lemma {:induction false} FallbackPersists(s: Settings, reqs: seq<Request>, cfg: Config, id: string)
    requires forall i :: 0 <= i < |reqs| ==> !Touches(reqs[i], id)
    ensures FallbackText(Run(s, reqs, cfg), id) == FallbackText(s, id)
    decreases |reqs|
  {
    if reqs != [] {
      StepKeepsOthersFallback(s, reqs[0], cfg, id);
      assert forall i :: 0 <= i < |reqs[1..]| ==> reqs[1..][i] == reqs[i + 1];
      FallbackPersists(Step(s, reqs[0], cfg), reqs[1..], cfg, id);
    }
  }

  // ----- The application -----

  /** The running relay: its settings, updated in place by the handlers. */
  class RelayApp {
    var settings: Settings

    constructor ()
      ensures settings == map[]
    {
      settings := map[];
    }

    /** GET /answer */
    method Answer(uuid: string, cfg: Config) returns (ncco: Ncco)
      modifies this
      ensures settings == AnswerUpdate(old(settings), uuid, cfg)
      ensures ncco == AnswerNcco(uuid)
    {
      settings := settings[BotResponseKey(uuid) := cfg.defaultBotGreetingText];
      ncco := [Conversation(ConferenceName(uuid), Some(true))];
    }

    /** POST /event */
    method Event(ev: CallEvent)
      modifies this
      ensures settings == EventUpdate(old(settings), ev)
    {
      if ev.eventType == Some("transfer") {
        if Lookup(settings, FirstTransferDoneKey(ev.uuid)) == Some("no") {
          settings := settings[FirstTransferDoneKey(ev.uuid) := "yes"];
        }
      }
      if ev.status == Some("completed") {
        settings := settings - {BotResponseKey(ev.uuid), FirstTransferDoneKey(ev.uuid)};
      }
    }

    /** POST /asr: reads the settings and changes nothing. */
    method Asr(uuid: string, speech: SpeechPayload, host: string, cfg: Config) returns (effect: Option<Effect>)
      ensures effect == AsrEffect(settings, uuid, speech, host, cfg)
    {
      effect := None;
      if speech.results != NoResultsMember {
        if speech.results == NullResults || |speech.results.items| < 1 {
          var ttsText := Lookup(settings, BotResponseKey(uuid));
          effect := Some(DoNewAsr(uuid, ttsText, host, cfg));
        }
      } else {
        var ttsText := Lookup(settings, BotResponseKey(uuid));
        effect := Some(DoNewAsr(uuid, ttsText, host, cfg));
      }
    }

    /** POST /botreply, with the bot's text (None when undefined) as `reply`. */
    method BotReply(id: string, reply: Option<string>, host: string, cfg: Config) returns (effect: Effect)
      modifies this
      ensures settings == BotReplyUpdate(old(settings), id, reply)
      ensures effect == BotReplyEffect(id, reply, host, cfg)
    {
      if reply.Some? {
        settings := settings[BotResponseKey(id) := reply.value];
      } else {
        settings := settings - {BotResponseKey(id)};
      }
      effect := DoNewAsr(id, reply, host, cfg);
    }
  }
}
