/**
 * The backend: the sentiment endpoint's decision rules, and the WebSocket relay
 * between one browser client and one Gemini live session.
 *
 * Foreign calls are parameters: the speech transcriber and TextBlob's polarity
 * are functions given to `AnalyzeSentiment`; what arrives on the two sockets is a
 * finite stream of events given to the relay loops. The relay's two loops run
 * concurrently in the source, but each reads one socket and writes the other, so
 * each is modelled on its own stream.
 */
module Relay {
  import opened Common
  import opened JsonValue

  // ---------------------------------------------------------------------------
  // Sentiment
  // ---------------------------------------------------------------------------

  /**
   * The polarity above which a text is positive, and whose negation it must fall
   * below to be negative: the literal `0.05` as Python reads it, the double
   * nearest to 1/20, which lies just above 1/20.
   */
  const PolarityThreshold: real := 0.05000000000000000277555756156289135105907917022705078125

  /** What `analyze_text_sentiment` returns. */
  datatype SentimentResult = SentimentResult(sentiment: string, polarity: real)

  /** The label of a polarity: exactly one of three, by the two thresholds. */
  function Label(polarity: real): (name: string)
    ensures name == "Positive" <==> polarity > PolarityThreshold
    ensures name == "Negative" <==> polarity < -PolarityThreshold
    ensures name == "Neutral" <==> -PolarityThreshold <= polarity <= PolarityThreshold
  {
    if polarity > PolarityThreshold then "Positive"
    else if polarity < -PolarityThreshold then "Negative"
    else "Neutral"
  }

  /**
   * `analyze_text_sentiment`, given TextBlob's polarity of the text (`None` when
   * TextBlob raises): the label and the polarity, or "Error" with polarity zero.
   */
  function AnalyzeTextSentiment(polarity: Option<real>): (r: SentimentResult)
    ensures polarity.None? ==> r == SentimentResult("Error", 0.0)
    ensures polarity.Some? ==> r.polarity == polarity.value && r.sentiment == Label(polarity.value)
    ensures r.sentiment in {"Positive", "Negative", "Neutral", "Error"}
  {
    match polarity
    case None => SentimentResult("Error", 0.0)
    case Some(p) => SentimentResult(Label(p), p)
  }

  /** A larger polarity never gets a lower label. */
  function LabelRank(name: string): int {
    if name == "Negative" then -1 else if name == "Positive" then 1 else 0
  }

  lemma LabelMonotone(p: real, q: real)
    requires p <= q
    ensures LabelRank(Label(p)) <= LabelRank(Label(q))
  {
    if Label(q) == "Negative" {
      assert q < -PolarityThreshold;
    }
  }

  /** The response of `/analyze_sentiment`: the JSON body, or an HTTP error. */
  datatype Response =
    | Ok(transcription: string, sentiment: string, polarity: real)
    | HttpError(status: nat, detail: string)

  const MinimumUploadSize: nat := 100
  const EmptyUploadDetail: string := "Empty audio file"
  const SmallUploadDetail: string := "Audio file is too small or empty"
  const NoSpeechDetail: string := "Could not transcribe audio - no speech detected"

  /**
   * `analyze_sentiment` on the uploaded bytes. `transcribe` is `transcribe_audio`
   * (its exception message on failure) and `polarity` TextBlob's polarity of a
   * text. The checks run in order: empty upload, upload under 100 bytes, failed
   * transcription, empty transcription; each answers 400.
   */
  function AnalyzeSentiment(audio: seq<Byte>, transcribe: seq<Byte> -> Result<string, string>,
                            polarity: string -> Option<real>): (r: Response)
    ensures audio == [] ==> r == HttpError(400, EmptyUploadDetail)
    ensures 0 < |audio| < MinimumUploadSize ==> r == HttpError(400, SmallUploadDetail)
    ensures |audio| >= MinimumUploadSize && transcribe(audio).Failure? ==>
      r == HttpError(400, transcribe(audio).error)
    ensures |audio| >= MinimumUploadSize && transcribe(audio) == Success("") ==>
      r == HttpError(400, NoSpeechDetail)
    ensures r.Ok? <==> |audio| >= MinimumUploadSize && transcribe(audio).Success? && transcribe(audio).value != ""
    ensures r.Ok? ==>
      && r.transcription == transcribe(audio).value
      && SentimentResult(r.sentiment, r.polarity) == AnalyzeTextSentiment(polarity(r.transcription))
    ensures r.HttpError? ==> r.status == 400
  {
    if audio == [] then HttpError(400, EmptyUploadDetail)
    else if |audio| < MinimumUploadSize then HttpError(400, SmallUploadDetail)
    else match transcribe(audio)
      case Failure(message) => HttpError(400, message)
      case Success(text) =>
        if text == "" then HttpError(400, NoSpeechDetail)
        else
          var s := AnalyzeTextSentiment(polarity(text));
          Ok(text, s.sentiment, s.polarity)
  }

  /** An upload under 100 bytes is refused before the transcriber is consulted. */
  lemma SmallUploadNotTranscribed(audio: seq<Byte>, t1: seq<Byte> -> Result<string, string>,
                                  t2: seq<Byte> -> Result<string, string>, polarity: string -> Option<real>)
    requires |audio| < MinimumUploadSize
    ensures AnalyzeSentiment(audio, t1, polarity) == AnalyzeSentiment(audio, t2, polarity)
    ensures AnalyzeSentiment(audio, t1, polarity).HttpError?
  {
    if audio != [] {
      assert 0 < |audio| < MinimumUploadSize;
    }
  }

  // ---------------------------------------------------------------------------
  // Messages to Gemini
  // ---------------------------------------------------------------------------

  const Model: string := "gemini-2.0-flash-exp"
  const AudioMime: string := "audio/pcm"
  const ImageMime: string := "image/jpeg"

  /** `value[k1][k2]...` in Python: the value found, or the first error raised. */
  function Path(j: Json, keys: seq<string>): (r: Lookup)
    ensures keys == [] ==> r == Found(j)
    decreases |keys|
  {
    if keys == [] then Found(j)
    else match GetItem(j, keys[0])
      case Found(v) => Path(v, keys[1..])
      case KeyError => KeyError
      case TypeError => TypeError
  }

  /** One step of a path into a dict that has the key. */
  lemma PathStep(fields: map<string, Json>, keys: seq<string>)
    requires keys != [] && keys[0] in fields
    ensures Path(JObj(fields), keys) == Path(fields[keys[0]], keys[1..])
  {
  }

  /** `{"realtime_input": {"media_chunks": [{"data": data, "mime_type": mime}]}}`. */
  function MediaMessage(data: Json, mime: string): Json {
    JObj(map["realtime_input" :=
      JObj(map["media_chunks" := JArr([JObj(map["data" := data, "mime_type" := JStr(mime)])])])])
  }

  /** Reads back the one media chunk of a realtime-input message: its data and mime type. */
  function MediaChunkOf(j: Json): Option<(Json, Json)> {
    match Path(j, ["realtime_input", "media_chunks"])
    case Found(JArr(chunks)) =>
      if |chunks| == 1 && GetItem(chunks[0], "data").Found? && GetItem(chunks[0], "mime_type").Found?
      then Some((GetItem(chunks[0], "data").value, GetItem(chunks[0], "mime_type").value))
      else None
    case _ => None
  }

  /** `send_audio`'s message: the payload as one `audio/pcm` media chunk. */
  function AudioInputMessage(data: Json): (j: Json)
    ensures MediaChunkOf(j) == Some((data, JStr(AudioMime)))
  {
    PathStep(map["realtime_input" := JObj(map["media_chunks" :=
      JArr([JObj(map["data" := data, "mime_type" := JStr(AudioMime)])])])], ["realtime_input", "media_chunks"]);
    MediaMessage(data, AudioMime)
  }

  /** `send_image`'s message: the payload as one `image/jpeg` media chunk. */
  function ImageInputMessage(data: Json): (j: Json)
    ensures MediaChunkOf(j) == Some((data, JStr(ImageMime)))
  {
    PathStep(map["realtime_input" := JObj(map["media_chunks" :=
      JArr([JObj(map["data" := data, "mime_type" := JStr(ImageMime)])])])], ["realtime_input", "media_chunks"]);
    MediaMessage(data, ImageMime)
  }

  /** `send_text`'s message: one user turn holding the text, marked complete. */
  function TextInputMessage(text: Json): (j: Json)
    ensures Path(j, ["client_content", "turn_complete"]) == Found(JBool(true))
    ensures Path(j, ["client_content", "turns"]).Found?
    ensures Path(j, ["client_content", "turns"]).value ==
      JArr([JObj(map["role" := JStr("user"), "parts" := JArr([JObj(map["text" := text])])])])
  {
    var turns := JArr([JObj(map["role" := JStr("user"), "parts" := JArr([JObj(map["text" := text])])])]);
    var content := map["turns" := turns, "turn_complete" := JBool(true)];
    PathStep(map["client_content" := JObj(content)], ["client_content", "turn_complete"]);
    PathStep(map["client_content" := JObj(content)], ["client_content", "turns"]);
    PathStep(content, ["turn_complete"]);
    PathStep(content, ["turns"]);
    JObj(map["client_content" := JObj(content)])
  }

  /** The setup message `connect` sends first, with the configured voice and system prompt. */
  function SetupMessage(voice: Json, systemPrompt: Json): Json {
    JObj(map["setup" := JObj(map[
      "model" := JStr("models/" + Model),
      "generation_config" := JObj(map[
        "response_modalities" := JArr([JStr("AUDIO")]),
        "speech_config" := JObj(map["voice_config" := JObj(map["prebuilt_voice_config" :=
          JObj(map["voice_name" := voice])])])]),
      "system_instruction" := JObj(map["parts" := JArr([JObj(map["text" := systemPrompt])])])])])
  }

  const NoConfigError: string := "Configuration must be set before connecting"

  /**
   * What `connect` sends after opening the socket: nothing, with an error, when
   * the configuration is falsy or lacks `voice` or `systemPrompt`; otherwise the
   * setup message.
   */
  function Setup(config: Json): (r: Result<Json, string>)
    ensures r.Success? <==>
      Truthy(config) && GetItem(config, "voice").Found? && GetItem(config, "systemPrompt").Found?
    ensures !Truthy(config) ==> r == Failure(NoConfigError)
    ensures r.Success? ==>
      r.value == SetupMessage(GetItem(config, "voice").value, GetItem(config, "systemPrompt").value)
  {
    if !Truthy(config) then Failure(NoConfigError)
    else match (GetItem(config, "voice"), GetItem(config, "systemPrompt"))
      case (Found(voice), Found(prompt)) => Success(SetupMessage(voice, prompt))
      case (Found(_), _) => Failure("systemPrompt")
      case _ => Failure("voice")
  }

  /** The setup message names the model and carries the voice where Gemini reads it. */
  lemma SetupReadsBack(voice: Json, prompt: Json)
    ensures Path(SetupMessage(voice, prompt), ["setup", "model"]) == Found(JStr("models/" + Model))
    ensures Path(SetupMessage(voice, prompt), ["setup", "generation_config", "speech_config", "voice_config",
                                               "prebuilt_voice_config", "voice_name"]) == Found(voice)
  {
    var m := SetupMessage(voice, prompt);
    var setup := m.fields["setup"];
    var generation := setup.fields["generation_config"];
    var speech := generation.fields["speech_config"];
    var voiceConfig := speech.fields["voice_config"];
    var prebuilt := voiceConfig.fields["prebuilt_voice_config"];
    var keys := ["setup", "generation_config", "speech_config", "voice_config", "prebuilt_voice_config", "voice_name"];
    PathStep(m.fields, ["setup", "model"]);
    PathStep(setup.fields, ["model"]);
    PathStep(m.fields, keys);
    PathStep(setup.fields, keys[1..]);
    PathStep(generation.fields, keys[2..]);
    PathStep(speech.fields, keys[3..]);
    PathStep(voiceConfig.fields, keys[4..]);
    PathStep(prebuilt.fields, keys[5..]);
  }

  // ---------------------------------------------------------------------------
  // Client to Gemini
  // ---------------------------------------------------------------------------

  /** The three kinds of client message the relay forwards. */
  datatype Kind = AudioKind | ImageKind | TextKind

  /** A client message to forward: its kind and its `data` value. */
  datatype Request = Request(kind: Kind, data: Json)

  function KindName(k: Kind): string {
    match k
    case AudioKind => "audio"
    case ImageKind => "image"
    case TextKind => "text"
  }

  /** The message `send_audio`, `send_image` or `send_text` sends for a request. */
  function Encode(r: Request): Json {
    match r.kind
    case AudioKind => AudioInputMessage(r.data)
    case ImageKind => ImageInputMessage(r.data)
    case TextKind => TextInputMessage(r.data)
  }

  /**
   * The dispatch of `receive_from_client` on a decoded message: a known `type`
   * with a `data` entry is forwarded; an unknown type, a missing key or a value
   * that is not a dict is skipped.
   */
  function Route(content: Json): (r: Option<Request>)
    ensures r.Some? <==>
      && GetItem(content, "type").Found?
      && GetItem(content, "type").value in {JStr("audio"), JStr("image"), JStr("text")}
      && GetItem(content, "data").Found?
    ensures r.Some? ==>
      GetItem(content, "type") == Found(JStr(KindName(r.value.kind))) && GetItem(content, "data") == Found(r.value.data)
  {
    match GetItem(content, "type")
    case Found(t) =>
      var kind :=
        if t == JStr("audio") then Some(AudioKind)
        else if t == JStr("image") then Some(ImageKind)
        else if t == JStr("text") then Some(TextKind)
        else None;
      if kind.Some? && GetItem(content, "data").Found? then Some(Request(kind.value, GetItem(content, "data").value))
      else None
    case _ => None
  }

  /** One turn of `receive_from_client`'s loop, as the client socket presents it. */
  datatype ClientEvent =
    | ClientStateClosed                   // the loop-top state check fires
    | DisconnectMessage                   // a `websocket.disconnect` message
    | TextMessage(content: Option<Json>)  // a message's `text`, `None` when it is not JSON
    | NoText                              // a message without `text`: KeyError, skipped
    | ReceiveRaised(error: string)        // `receive` raised with this message

  /** The events that make `receive_from_client` return. */
  predicate StopsClient(e: ClientEvent) {
    || e.ClientStateClosed?
    || e.DisconnectMessage?
    || (e.ReceiveRaised? && IsSubstring("disconnect message", e.error))
  }

  /** What one event that does not stop the loop forwards. */
  function ClientStep(e: ClientEvent): (forwarded: seq<Request>)
    ensures |forwarded| <= 1
    ensures forwarded != [] ==>
      e.TextMessage? && e.content.Some? && Route(e.content.value).Some? && forwarded == [Route(e.content.value).value]
  {
    match e
    case TextMessage(Some(content)) => if Route(content).Some? then [Route(content).value] else []
    case _ => []
  }

  /** The requests `receive_from_client` forwards from a stream of events, in order. */
  function ClientRelay(events: seq<ClientEvent>): seq<Request>
  {
    if events == [] || StopsClient(events[0]) then []
    else ClientStep(events[0]) + ClientRelay(events[1..])
  }

  /** Nothing after the first stopping event is forwarded. */
  lemma {:induction false} ClientRelayStops(events: seq<ClientEvent>, i: nat)
    requires i < |events| && StopsClient(events[i])
    ensures ClientRelay(events) == ClientRelay(events[..i])
  {
    if i > 0 && !StopsClient(events[0]) {
      ClientRelayStops(events[1..], i - 1);
      assert events[1..][..i - 1] == events[..i][1..];
    }
  }

  /** A skipped message (bad JSON, no text, unknown type, missing key) leaves the rest of the relay as it was. */
  lemma {:induction false} ClientRelaySkips(before: seq<ClientEvent>, e: ClientEvent, after: seq<ClientEvent>)
    requires forall k :: 0 <= k < |before| ==> !StopsClient(before[k])
    requires !StopsClient(e) && ClientStep(e) == []
    ensures ClientRelay(before + [e] + after) == ClientRelay(before + after)
  {
    if before == [] {
      assert before + [e] + after == [e] + after;
      assert ([e] + after)[1..] == after;
      assert ([e] + after)[0] == e;
      assert ClientRelay([e] + after) == ClientStep(e) + ClientRelay(after);
      assert ClientStep(e) + ClientRelay(after) == ClientRelay(after);
      assert before + after == after;
    } else {
      ClientRelaySkips(before[1..], e, after);
      var whole := before + [e] + after;
      assert whole[0] == before[0] && whole[1..] == before[1..] + [e] + after;
      assert (before + after)[0] == before[0] && (before + after)[1..] == before[1..] + after;
      assert ClientRelay(whole) == ClientStep(before[0]) + ClientRelay(before[1..] + [e] + after);
    }
  }

  /** The messages sent to Gemini for a sequence of requests. */
  function EncodeAll(rs: seq<Request>): (js: seq<Json>)
    ensures |js| == |rs|
    ensures forall i :: 0 <= i < |rs| ==> js[i] == Encode(rs[i])
  {
    if rs == [] then [] else [Encode(rs[0])] + EncodeAll(rs[1..])
  }

  lemma {:induction false} EncodeAllAppend(a: seq<Request>, b: seq<Request>)
    ensures EncodeAll(a + b) == EncodeAll(a) + EncodeAll(b)
  {
    assert |EncodeAll(a + b)| == |EncodeAll(a) + EncodeAll(b)|;
    forall i | 0 <= i < |a + b|
      ensures EncodeAll(a + b)[i] == (EncodeAll(a) + EncodeAll(b))[i]
    {
      if i < |a| {
        assert (a + b)[i] == a[i];
      } else {
        assert (a + b)[i] == b[i - |a|];
      }
    }
  }

  // ---------------------------------------------------------------------------
  // Gemini to client
  // ---------------------------------------------------------------------------

  /** `{"type": "audio", "data": d}`, a forwarded audio part. */
  function AudioReply(d: Json): (j: Json)
    ensures Member(j, "type") == Some(JStr("audio")) && Member(j, "data") == Some(d)
  {
    Tagged("audio", "data", d)
  }

  /** `{"type": "text", "data": t}`, a forwarded text part. */
  function TextReply(t: Json): (j: Json)
    ensures Member(j, "type") == Some(JStr("text")) && Member(j, "data") == Some(t)
  {
    Tagged("text", "data", t)
  }

  /** `{"type": "turn_complete", "data": true}`. */
  function TurnCompleteReply(): (j: Json)
    ensures Member(j, "type") == Some(JStr("turn_complete")) && Member(j, "data") == Some(JBool(true))
  {
    Tagged("turn_complete", "data", JBool(true))
  }

  /** The types of the messages the relay sends to the client. */
  predicate IsReply(j: Json) {
    Member(j, "type") in {Some(JStr("audio")), Some(JStr("text")), Some(JStr("turn_complete"))}
  }

  /** What happens to one part of a model turn. */
  datatype PartStep = Forward(message: Json) | Skip | KeyErrorRaised | TypeErrorRaised

  /**
   * One part: with `inlineData` its `data` goes out as audio; otherwise with
   * `text` the text goes out; otherwise nothing. Python's `in` and subscript
   * decide which error a part that is not a dict raises.
   */
  function ForwardPart(p: Json): (s: PartStep)
    ensures s.Forward? ==> IsReply(s.message)
    ensures s.Forward? && p.JObj? && "inlineData" in p.fields ==>
      GetItem(p.fields["inlineData"], "data").Found? && s.message == AudioReply(GetItem(p.fields["inlineData"], "data").value)
    ensures s.Forward? && p.JObj? && "inlineData" !in p.fields ==> "text" in p.fields && s.message == TextReply(p.fields["text"])
    ensures p.JObj? && "inlineData" in p.fields && GetItem(p.fields["inlineData"], "data").Found? ==>
      s == Forward(AudioReply(GetItem(p.fields["inlineData"], "data").value))
    ensures p.JObj? && "inlineData" in p.fields && GetItem(p.fields["inlineData"], "data").KeyError? ==>
      s == KeyErrorRaised
    ensures p.JObj? && "inlineData" in p.fields && GetItem(p.fields["inlineData"], "data").TypeError? ==>
      s == TypeErrorRaised
    ensures p.JObj? && "inlineData" !in p.fields && "text" in p.fields ==> s == Forward(TextReply(p.fields["text"]))
    ensures p.JObj? && "inlineData" !in p.fields && "text" !in p.fields ==> s == Skip
    ensures !p.JObj? ==> s == Skip || s == TypeErrorRaised
  {
    match Contains(p, "inlineData")
    case None => TypeErrorRaised
    case Some(true) =>
      (match GetItem(p, "inlineData")
       case Found(inline) =>
         (match GetItem(inline, "data")
          case Found(d) => Forward(AudioReply(d))
          case KeyError => KeyErrorRaised
          case TypeError => TypeErrorRaised)
       case KeyError => KeyErrorRaised
       case TypeError => TypeErrorRaised)
    case Some(false) =>
      if Contains(p, "text") == Some(true) then
        match GetItem(p, "text")
        case Found(t) => Forward(TextReply(t))
        case KeyError => KeyErrorRaised
        case TypeError => TypeErrorRaised
      else Skip
  }

  /** Whether `receive_from_gemini` goes on with the next Gemini message. */
  datatype Next = Continue | End

  /** The messages sent to the client while handling something, and whether the receiver goes on. */
  datatype Forwarding = Forwarding(sent: seq<Json>, next: Next)

  /**
   * The loop over the parts. `live` is how many of the per-part state checks
   * still find the client socket open; the first one that does not ends the
   * receiver. A KeyError abandons the remaining parts; a TypeError ends the receiver.
   */
  function ForwardParts(parts: seq<Json>, live: nat): (r: Forwarding)
    ensures |r.sent| <= |parts| && |r.sent| <= live
    ensures forall i :: 0 <= i < |r.sent| ==> IsReply(r.sent[i]) && r.sent[i] != TurnCompleteReply()
    ensures live < |parts| ==> r.next == End || |r.sent| < live
  {
    if parts == [] then Forwarding([], Continue)
    else if live == 0 then Forwarding([], End)
    else match ForwardPart(parts[0])
      case Forward(m) =>
        var rest := ForwardParts(parts[1..], live - 1);
        assert Member(TurnCompleteReply(), "type") != Member(m, "type");
        Forwarding([m] + rest.sent, rest.next)
      case Skip => ForwardParts(parts[1..], live - 1)
      case KeyErrorRaised => Forwarding([], Continue)
      case TypeErrorRaised => Forwarding([], End)
  }

  /** Whether a part is forwarded or skipped, rather than raising. */
  predicate Passes(p: Json) {
    ForwardPart(p).Forward? || ForwardPart(p).Skip?
  }

  /** The message a part produces: one when it is forwarded, none when it is skipped. */
  function PartMessages(p: Json): seq<Json> {
    if ForwardPart(p).Forward? then [ForwardPart(p).message] else []
  }

  /** The messages the parts produce one by one, in order, skipped parts producing none. */
  function Messages(parts: seq<Json>): (ms: seq<Json>)
    ensures |ms| <= |parts|
  {
    if parts == [] then []
    else PartMessages(parts[0]) + Messages(parts[1..])
  }

  /** The messages of consecutive runs of parts follow each other. */
  lemma {:induction false} MessagesAppend(a: seq<Json>, b: seq<Json>)
    ensures Messages(a + b) == Messages(a) + Messages(b)
  {
    if a != [] {
      MessagesAppend(a[1..], b);
      assert (a + b)[0] == a[0] && (a + b)[1..] == a[1..] + b;
    } else {
      assert a + b == b;
    }
  }

  /** One part that passes, with the client open for it. */
  lemma ForwardPartsStep(parts: seq<Json>, live: nat)
    requires parts != [] && live > 0 && Passes(parts[0])
    ensures ForwardParts(parts, live).sent == PartMessages(parts[0]) + ForwardParts(parts[1..], live - 1).sent
    ensures ForwardParts(parts, live).next == ForwardParts(parts[1..], live - 1).next
  {
  }

  lemma MessagesHead(parts: seq<Json>)
    requires parts != []
    ensures Messages(parts) == PartMessages(parts[0]) + Messages(parts[1..])
  {
  }

  /**
   * Parts that all pass, with the client open throughout, are forwarded in order,
   * one message per part that is not skipped, and the receiver goes on.
   */
  lemma {:induction false} ForwardPartsInOrder(parts: seq<Json>, live: nat)
    requires |parts| <= live
    requires forall i :: 0 <= i < |parts| ==> Passes(parts[i])
    ensures ForwardParts(parts, live) == Forwarding(Messages(parts), Continue)
  {
    if parts != [] {
      assert Passes(parts[0]);
      forall i | 0 <= i < |parts| - 1
        ensures Passes(parts[1..][i])
      {
        assert parts[1..][i] == parts[i + 1];
      }
      ForwardPartsInOrder(parts[1..], live - 1);
      ForwardPartsStep(parts, live);
    }
  }

  /**
   * The first part that raises, after parts that pass and with the client open
   * for it: the messages of the parts before it go out, the parts after it are
   * abandoned, and the receiver goes on after a KeyError but ends after a TypeError.
   */
  lemma {:induction false} ForwardPartsRaises(parts: seq<Json>, live: nat, k: nat)
    requires k < |parts| && k < live
    requires forall i :: 0 <= i < k ==> Passes(parts[i])
    requires !Passes(parts[k])
    ensures ForwardParts(parts, live) ==
      Forwarding(Messages(parts[..k]), if ForwardPart(parts[k]).KeyErrorRaised? then Continue else End)
  {
    if k == 0 {
      assert parts[..0] == [];
    } else {
      assert Passes(parts[0]);
      forall i | 0 <= i < k - 1
        ensures Passes(parts[1..][i])
      {
        assert parts[1..][i] == parts[i + 1];
      }
      ForwardPartsRaises(parts[1..], live - 1, k - 1);
      ForwardPartsStep(parts, live);
      MessagesHead(parts[..k]);
      assert parts[..k][0] == parts[0] && parts[..k][1..] == parts[1..][..k - 1];
      assert parts[1..][k - 1] == parts[k];
    }
  }

  /**
   * The client found closed at the check before part `live`, after parts that
   * pass: their messages go out and the receiver ends.
   */
  lemma {:induction false} ForwardPartsClientClosed(parts: seq<Json>, live: nat)
    requires live < |parts|
    requires forall i :: 0 <= i < live ==> Passes(parts[i])
    ensures ForwardParts(parts, live) == Forwarding(Messages(parts[..live]), End)
  {
    if live == 0 {
      assert parts[..0] == [];
    } else {
      assert Passes(parts[0]);
      forall i | 0 <= i < live - 1
        ensures Passes(parts[1..][i])
      {
        assert parts[1..][i] == parts[i + 1];
      }
      ForwardPartsClientClosed(parts[1..], live - 1);
      ForwardPartsStep(parts, live);
      MessagesHead(parts[..live]);
      assert parts[..live][0] == parts[0] && parts[..live][1..] == parts[1..][..live - 1];
    }
  }

  /** A part holding inline audio data `d`, as Gemini sends it. */
  function InlinePart(d: Json): Json {
    JObj(map["inlineData" := JObj(map["data" := d])])
  }

  /** Inline audio parts carrying `ds`, in order. */
  function InlineParts(ds: seq<Json>): (parts: seq<Json>)
    ensures |parts| == |ds|
  {
    if ds == [] then [] else [InlinePart(ds[0])] + InlineParts(ds[1..])
  }

  /** The audio replies carrying `ds`, in order. */
  function AudioReplies(ds: seq<Json>): (replies: seq<Json>)
    ensures |replies| == |ds|
  {
    if ds == [] then [] else [AudioReply(ds[0])] + AudioReplies(ds[1..])
  }

  /** A run of inline audio parts is forwarded whole, in order, while the client stays open. */
  lemma {:induction false} AudioPartsInOrder(ds: seq<Json>, live: nat)
    requires |ds| <= live
    ensures ForwardParts(InlineParts(ds), live) == Forwarding(AudioReplies(ds), Continue)
  {
    if ds != [] {
      AudioPartsInOrder(ds[1..], live - 1);
      var parts := InlineParts(ds);
      assert parts[0] == InlinePart(ds[0]) && parts[1..] == InlineParts(ds[1..]);
      assert ForwardPart(parts[0]) == Forward(AudioReply(ds[0]));
    }
  }

  /**
   * `for p in parts` on any value: a list yields its items, a string its
   * characters; iterating a dict yields its keys, each of which either raises
   * (a key containing "inlineData" or "text") or is skipped, so the outcome does
   * not depend on the key order; anything else raises TypeError.
   */
  function ForwardIterable(parts: Json, live: nat): (r: Forwarding)
    ensures parts.JArr? ==> r == ForwardParts(parts.items, live)
    ensures forall i :: 0 <= i < |r.sent| ==> IsReply(r.sent[i]) && r.sent[i] != TurnCompleteReply()
  {
    match parts
    case JArr(items) => ForwardParts(items, live)
    case JStr(s) => ForwardParts(seq(|s|, i requires 0 <= i < |s| => JStr([s[i]])), live)
    case JObj(fields) =>
      if |fields| <= live && forall k :: k in fields ==> !IsSubstring("inlineData", k) && !IsSubstring("text", k)
      then Forwarding([], Continue)
      else Forwarding([], End)
    case _ => Forwarding([], End)
  }

  /** Where a Gemini message holds the parts of the model's turn. */
  const PartsPath: seq<string> := ["serverContent", "modelTurn", "parts"]

  /** Where a Gemini message says whether the turn is complete. */
  const TurnCompletePath: seq<string> := ["serverContent", "turnComplete"]

  /**
   * The first stage of handling a Gemini message, the `try` around the parts: a
   * missing key forwards nothing and goes on; any other error ends the receiver.
   */
  function PartsStage(response: Json, live: nat): (r: Forwarding)
    ensures Path(response, PartsPath).Found? ==> r == ForwardIterable(Path(response, PartsPath).value, live)
    ensures Path(response, PartsPath).KeyError? ==> r == Forwarding([], Continue)
    ensures Path(response, PartsPath).TypeError? ==> r == Forwarding([], End)
  {
    match Path(response, PartsPath)
    case Found(parts) => ForwardIterable(parts, live)
    case KeyError => Forwarding([], Continue)
    case TypeError => Forwarding([], End)
  }

  /**
   * The handling of one decoded Gemini message: the parts of
   * `serverContent.modelTurn.parts` in order, then one turn-complete message when
   * `serverContent.turnComplete` is truthy. A missing key skips that stage; any
   * other error ends the receiver.
   */
  function Translate(response: Json, live: nat): (r: Forwarding)
    ensures forall i :: 0 <= i < |r.sent| ==> IsReply(r.sent[i])
    ensures forall i :: 0 <= i < |r.sent| - 1 ==> r.sent[i] != TurnCompleteReply()
    // the parts stage ending the receiver skips the turn-complete stage
    ensures PartsStage(response, live).next == End ==> r == PartsStage(response, live)
    // otherwise a present flag adds exactly one marker after the parts when truthy, none when falsy
    ensures PartsStage(response, live).next == Continue && Path(response, TurnCompletePath).Found? ==>
      r == Forwarding(PartsStage(response, live).sent +
                        (if Truthy(Path(response, TurnCompletePath).value) then [TurnCompleteReply()] else []),
                      Continue)
    // a missing flag changes nothing; a flag that cannot be looked up ends the receiver
    ensures Path(response, TurnCompletePath).KeyError? ==> r == PartsStage(response, live)
    ensures Path(response, TurnCompletePath).TypeError? ==> r == Forwarding(PartsStage(response, live).sent, End)
    // a response without parts sends at most the marker
    ensures Path(response, PartsPath).KeyError? ==> r.sent == [] || r.sent == [TurnCompleteReply()]
  {
    var forwarded := PartsStage(response, live);
    if forwarded.next == End then forwarded
    else match Path(response, TurnCompletePath)
      case Found(flag) =>
        Forwarding(forwarded.sent + (if Truthy(flag) then [TurnCompleteReply()] else []), Continue)
      case KeyError => forwarded
      case TypeError => Forwarding(forwarded.sent, End)
  }

  /**
   * A turn whose parts are a list that all pass, with the client open for each,
   * sends the parts' messages in order and then, when `turnComplete` is true, one
   * turn-complete marker.
   */
  lemma TranslateInOrder(response: Json, live: nat, parts: seq<Json>, complete: bool)
    requires Path(response, PartsPath) == Found(JArr(parts))
    requires Path(response, TurnCompletePath) == Found(JBool(complete))
    requires |parts| <= live
    requires forall i :: 0 <= i < |parts| ==> Passes(parts[i])
    ensures Translate(response, live) ==
      Forwarding(Messages(parts) + (if complete then [TurnCompleteReply()] else []), Continue)
  {
    ForwardPartsInOrder(parts, live);
  }

  /** One turn of `receive_from_gemini`'s loop. */
  datatype GeminiEvent =
    | GeminiClientClosed                     // the loop-top state check fires
    | GeminiReceiveFailed                    // `gemini.receive()` raised
    | GeminiMessage(raw: Option<Json>, live: nat)  // a message, `None` when it is not JSON

  /** Everything `receive_from_gemini` sends to the client, in order. */
  function GeminiRelay(events: seq<GeminiEvent>): (sent: seq<Json>)
    ensures forall i :: 0 <= i < |sent| ==> IsReply(sent[i])
  {
    if events == [] then []
    else match events[0]
      case GeminiMessage(Some(response), live) =>
        var t := Translate(response, live);
        t.sent + (if t.next == Continue then GeminiRelay(events[1..]) else [])
      case _ => []
  }

  /** One turn of the receiver, on the suffix of the stream it has left. */
  lemma GeminiRelayStep(events: seq<GeminiEvent>, i: nat)
    requires i < |events|
    ensures events[i].GeminiMessage? && events[i].raw.Some? ==>
      GeminiRelay(events[i..]) ==
        Translate(events[i].raw.value, events[i].live).sent +
        (if Translate(events[i].raw.value, events[i].live).next == Continue then GeminiRelay(events[i + 1..]) else [])
    ensures !(events[i].GeminiMessage? && events[i].raw.Some?) ==> GeminiRelay(events[i..]) == []
  {
    assert events[i..][1..] == events[i + 1..];
  }

  /** The receiver goes on past a message exactly when handling it did not end it. */
  lemma GeminiRelayContinues(response: Json, live: nat, rest: seq<GeminiEvent>)
    requires Translate(response, live).next == Continue
    ensures GeminiRelay([GeminiMessage(Some(response), live)] + rest) ==
            Translate(response, live).sent + GeminiRelay(rest)
  {
    assert ([GeminiMessage(Some(response), live)] + rest)[1..] == rest;
  }

  // ---------------------------------------------------------------------------
  // The two loops and the endpoint
  // ---------------------------------------------------------------------------

  /** `GeminiConnection`: the configuration, whether the socket was opened and closed, and what was sent on it. */
  class GeminiConnection {
    var config: Json
    var connected: bool
    var closed: bool
    var sent: seq<Json>

    /** A connection with no configuration (`None`) and no socket yet. */
    constructor ()
      ensures config == JNull && !connected && !closed && sent == []
    {
      config := JNull;
      connected := false;
      closed := false;
      sent := [];
    }

    /** `set_config`. */
    method SetConfig(c: Json)
      modifies this`config
      ensures config == c
    {
      config := c;
    }

    /**
     * `connect`: the socket opens first, then the configuration is checked and the
     * setup message sent; a falsy configuration or a missing field raises.
     */
    method Connect() returns (r: Result<Json, string>)
      modifies this`connected, this`sent
      ensures connected && r == Setup(config)
      ensures r.Success? ==> sent == old(sent) + [r.value]
      ensures r.Failure? ==> sent == old(sent)
    {
      connected := true;
      r := Setup(config);
      if r.Success? {
        sent := sent + [r.value];
      }
    }

    /** `send_audio`. */
    method SendAudio(data: Json)
      modifies this`sent
      ensures sent == old(sent) + [AudioInputMessage(data)]
    {
      sent := sent + [AudioInputMessage(data)];
    }

    /** `send_image`. */
    method SendImage(data: Json)
      modifies this`sent
      ensures sent == old(sent) + [ImageInputMessage(data)]
    {
      sent := sent + [ImageInputMessage(data)];
    }

    /** `send_text`. */
    method SendText(text: Json)
      modifies this`sent
      ensures sent == old(sent) + [TextInputMessage(text)]
    {
      sent := sent + [TextInputMessage(text)];
    }

    /** `close`: closes the socket if there is one. */
    method Close()
      modifies this`closed
      ensures closed == (old(closed) || connected)
    {
      if connected {
        closed := true;
      }
    }
  }

  /** `receive_from_client`: forwards each routed message to Gemini until a stopping event. */
  method ReceiveFromClient(events: seq<ClientEvent>, gemini: GeminiConnection)
    modifies gemini`sent
    ensures gemini.sent == old(gemini.sent) + EncodeAll(ClientRelay(events))
  {
    ghost var start := gemini.sent;
    var i := 0;
    while i < |events| && !StopsClient(events[i])
      invariant 0 <= i <= |events|
      invariant gemini.sent + EncodeAll(ClientRelay(events[i..])) == start + EncodeAll(ClientRelay(events))
      decreases |events| - i
    {
      ghost var before := gemini.sent;
      ClientRelayStep(events, i);
      HandleClientMessage(events[i], gemini);
      AppendAssoc(before, EncodeAll(ClientStep(events[i])), EncodeAll(ClientRelay(events[i + 1..])));
      i := i + 1;
    }
    assert ClientRelay(events[i..]) == [] by {
      if i == |events| {
        assert events[i..] == [];
      }
    }
    assert EncodeAll(ClientRelay(events[i..])) == [];
    assert gemini.sent + [] == gemini.sent;
  }

  lemma AppendAssoc(a: seq<Json>, b: seq<Json>, c: seq<Json>)
    ensures (a + b) + c == a + (b + c)
  {
  }

  /** One turn of `receive_from_client`, on the suffix of the stream it has left. */
  lemma ClientRelayStep(events: seq<ClientEvent>, i: nat)
    requires i < |events| && !StopsClient(events[i])
    ensures EncodeAll(ClientRelay(events[i..])) == EncodeAll(ClientStep(events[i])) + EncodeAll(ClientRelay(events[i + 1..]))
  {
    assert events[i..][1..] == events[i + 1..];
    EncodeAllAppend(ClientStep(events[i]), ClientRelay(events[i + 1..]));
  }

  /** The body of `receive_from_client`'s loop for one event that does not stop it. */
  method HandleClientMessage(e: ClientEvent, gemini: GeminiConnection)
    modifies gemini`sent
    ensures gemini.sent == old(gemini.sent) + EncodeAll(ClientStep(e))
  {
    if e.TextMessage? && e.content.Some? {
      var route := Route(e.content.value);
      if route.Some? {
        match route.value.kind {
          case AudioKind => gemini.SendAudio(route.value.data);
          case ImageKind => gemini.SendImage(route.value.data);
          case TextKind => gemini.SendText(route.value.data);
        }
      }
    }
  }

  /** `receive_from_gemini`: the messages it sends to the client until it ends. */
  method ReceiveFromGemini(events: seq<GeminiEvent>) returns (sent: seq<Json>)
    ensures sent == GeminiRelay(events)
  {
    sent := [];
    var i := 0;
    var running := true;
    while running && i < |events|
      invariant 0 <= i <= |events|
      invariant running ==> sent + GeminiRelay(events[i..]) == GeminiRelay(events)
      invariant !running ==> sent == GeminiRelay(events)
      decreases |events| - i
    {
      GeminiRelayStep(events, i);
      match events[i] {
        case GeminiMessage(Some(response), live) =>
          var t := Translate(response, live);
          sent := sent + t.sent;
          running := t.next == Continue;
        case _ =>
          running := false;
      }
      i := i + 1;
    }
  }

  /**
   * The first client message must be `{"type": "config", ...}`; its `config`
   * entry (an empty dict when absent) becomes the connection's configuration. A
   * message that is not JSON or not a dict raises.
   */
  function ConfigOf(first: Option<Json>): (r: Result<Json, string>)
    ensures r.Success? <==> first.Some? && first.value.JObj? && Member(first.value, "type") == Some(JStr("config"))
    ensures r.Success? ==> r.value == (if "config" in first.value.fields then first.value.fields["config"] else JObj(map[]))
  {
    match first
    case Some(JObj(fields)) =>
      if "type" in fields && fields["type"] == JStr("config") then
        Success(if "config" in fields then fields["config"] else JObj(map[]))
      else Failure("First message must be configuration")
    case _ => Failure("First message must be configuration")
  }

  /**
   * Everything one session sends: to Gemini (the setup message, then each routed
   * client message) and to the client. A bad first message or a failed setup
   * ends the session before any relaying.
   */
  function SessionTraffic(first: Option<Json>, clientEvents: seq<ClientEvent>,
                          geminiEvents: seq<GeminiEvent>): (traffic: (seq<Json>, seq<Json>))
  {
    match ConfigOf(first)
    case Failure(_) => ([], [])
    case Success(config) =>
      match Setup(config)
      case Failure(_) => ([], [])
      case Success(setup) => ([setup] + EncodeAll(ClientRelay(clientEvents)), GeminiRelay(geminiEvents))
  }

  /**
   * Nothing is relayed either way unless the first message is a configuration
   * with a voice and a system prompt; when it is, the setup message goes to
   * Gemini before anything the client sends, and only reply messages go to the
   * client.
   */
  lemma SessionTrafficOrder(first: Option<Json>, clientEvents: seq<ClientEvent>, geminiEvents: seq<GeminiEvent>)
    ensures var (toGemini, toClient) := SessionTraffic(first, clientEvents, geminiEvents);
      && (toGemini != [] <==> ConfigOf(first).Success? && Setup(ConfigOf(first).value).Success?)
      && (toGemini == [] ==> toClient == [])
      && (toGemini != [] ==> toGemini[0] == Setup(ConfigOf(first).value).value &&
                             toGemini[1..] == EncodeAll(ClientRelay(clientEvents)))
      && (forall i :: 0 <= i < |toClient| ==> IsReply(toClient[i]))
  {
    var (toGemini, toClient) := SessionTraffic(first, clientEvents, geminiEvents);
    if toGemini != [] {
      assert ([Setup(ConfigOf(first).value).value] + EncodeAll(ClientRelay(clientEvents)))[1..]
          == EncodeAll(ClientRelay(clientEvents));
    }
  }

  /**
   * The `try` body of `websocket_endpoint` after registration: the configuration
   * check, `connect`, then both relay loops.
   */
  method RunSession(gemini: GeminiConnection, first: Option<Json>,
                    clientEvents: seq<ClientEvent>, geminiEvents: seq<GeminiEvent>)
    returns (toClient: seq<Json>)
    requires !gemini.connected && gemini.sent == []
    modifies gemini`config, gemini`connected, gemini`sent
    ensures (gemini.sent, toClient) == SessionTraffic(first, clientEvents, geminiEvents)
    ensures gemini.connected <==> ConfigOf(first).Success?
  {
    toClient := [];
    var config := ConfigOf(first);
    if config.Success? {
      gemini.SetConfig(config.value);
      var setup := gemini.Connect();
      if setup.Success? {
        assert gemini.sent == [setup.value];
        ReceiveFromClient(clientEvents, gemini);
        toClient := ReceiveFromGemini(geminiEvents);
        assert SessionTraffic(first, clientEvents, geminiEvents) ==
          ([setup.value] + EncodeAll(ClientRelay(clientEvents)), GeminiRelay(geminiEvents));
      } else {
        assert SessionTraffic(first, clientEvents, geminiEvents) == ([], []);
      }
    }
  }

  /** The backend's table of live Gemini connections, by client id. */
  class Server {
    var connections: map<string, GeminiConnection>

    constructor ()
      ensures connections == map[]
    {
      connections := map[];
    }

    /**
     * The start of `websocket_endpoint`: a new connection is registered under the
     * client id, replacing whatever was registered there.
     */
    method Register(clientId: string) returns (gemini: GeminiConnection)
      modifies this`connections
      ensures fresh(gemini)
      ensures gemini.config == JNull && !gemini.connected && !gemini.closed && gemini.sent == []
      ensures connections == old(connections)[clientId := gemini]
    {
      gemini := new GeminiConnection();
      connections := connections[clientId := gemini];
    }

    /**
     * The `finally` of `websocket_endpoint`: the connection registered under the
     * client id now, whichever call registered it, is closed and dropped.
     */
    method Cleanup(clientId: string)
      modifies this`connections, (if clientId in connections then {connections[clientId]} else {})`closed
      ensures connections == old(connections) - {clientId}
      ensures clientId in old(connections) ==>
        old(connections)[clientId].closed == (old(connections[clientId].closed) || old(connections[clientId].connected))
    {
      if clientId in connections {
        connections[clientId].Close();
        connections := connections - {clientId};
      }
    }

    /**
     * `websocket_endpoint` for one client whose call overlaps no other call under
     * the same id: register a new connection, run the session, and finally close
     * the connection and drop the client's entry.
     */
    method WebsocketEndpoint(clientId: string, first: Option<Json>,
                             clientEvents: seq<ClientEvent>, geminiEvents: seq<GeminiEvent>)
      returns (gemini: GeminiConnection, toClient: seq<Json>)
      modifies this`connections
      ensures fresh(gemini)
      ensures connections == old(connections) - {clientId}
      ensures (gemini.sent, toClient) == SessionTraffic(first, clientEvents, geminiEvents)
      ensures gemini.connected <==> ConfigOf(first).Success?
      ensures gemini.closed == gemini.connected
    {
      gemini := Register(clientId);
      toClient := RunSession(gemini, first, clientEvents, geminiEvents);
      Cleanup(clientId);
    }

    /**
     * Two calls under one client id, as when the page restarts its stream while
     * the backend still runs the old session: both sessions send a configuration
     * that passes the setup check, so each connection is set up and relaying. The
     * second call registers its own connection and opens it, and the first call's
     * cleanup then closes the second call's connection and drops its entry,
     * leaving its own connection open. The second call's cleanup later finds
     * nothing to close.
     */
    method RestartWhileRunning(clientId: string, config: Json)
      returns (older: GeminiConnection, newer: GeminiConnection)
      requires Setup(config).Success?
      modifies this`connections
      ensures fresh(older) && fresh(newer) && older != newer
      ensures older.sent == [Setup(config).value] && newer.sent == [Setup(config).value]
      ensures older.connected && !older.closed
      ensures newer.connected && newer.closed
      ensures connections == old(connections) - {clientId}
    {
      older := Register(clientId);
      older.SetConfig(config);
      var _ := older.Connect();
      newer := Register(clientId);
      newer.SetConfig(config);
      var _ := newer.Connect();
      Cleanup(clientId);    // the older call's `finally`
      Cleanup(clientId);    // the newer call's `finally`
    }
  }
}
