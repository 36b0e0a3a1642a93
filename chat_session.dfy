/**
 * The streaming session of the chat page (`ChatInterface`): the WebSocket and the
 * capture devices it holds, the message log, and the FIFO through which audio
 * replies are played one chunk after another.
 *
 * Everything here runs on the browser's single event loop, so each event handler is
 * one method of `Session`. The browser objects (socket, audio context, microphone
 * nodes, camera stream, interval timer) are abstract handles; what the session does
 * to them is recorded in `effects`, and what it sends on the socket in the socket's
 * `sent` list.
 *
 * In the page component, `audioBuffer` and `isPlaying` are plain locals of the
 * component body, so React creates a fresh empty queue and a fresh `false` flag on
 * every re-render, while the handlers already installed keep the ones they captured.
 * The model keeps a single queue and flag per session, the behaviour those handlers
 * have between two renders.
 */
module ChatSession {
  import opened Common
  import opened JsonValue
  import Pcm

  /** The argument of `startStream`. */
  datatype Mode = TextMode | AudioMode | VideoMode

  /** `WebSocket.readyState`. */
  datatype ReadyState = Connecting | Open | Closing | Closed

  /** A message the client sends; `Wire` gives the JSON object it is stringified from. */
  datatype Outbound = ConfigFrame(config: Config) | AudioFrame(data: string)

  /** The socket in `wsRef`, with every message sent on it, oldest first. */
  datatype Socket = Socket(readyState: ReadyState, sent: seq<Outbound>)

  /** A browser object the session holds (a media stream, an audio node, a timer). */
  datatype Handle = Handle(id: nat)

  /** `audioContextRef`: the audio context and the sample rate it was created with. */
  datatype AudioContext = AudioContext(handle: Handle, sampleRate: nat)

  /** `audioInputRef`: the microphone source node, its script processor and its stream. */
  datatype AudioInput = AudioInput(source: Handle, processor: Handle, stream: Handle)

  datatype Sender = User | Assistant

  /**
   * An entry of the message log. `text` is whatever the `text` property of the
   * inbound message held (`None` for `undefined`).
   */
  datatype Message = Message(id: string, text: Option<Json>, timestamp: int, sender: Sender)

  /** The configuration sent first on every connection. */
  datatype Config = Config(systemPrompt: string, voice: string, googleSearch: bool, allowInterruptions: bool)

  /** The `AudioBuffer` a chunk is played from. */
  datatype PlaybackBuffer = PlaybackBuffer(numberOfChannels: nat, sampleRate: nat, data: seq<real>)

  /** A call the session makes on a browser object when it tears a stream down. */
  datatype Effect =
    | Disconnect(node: Handle)          // `AudioNode.disconnect()`
    | StopTracks(stream: Handle)        // `track.stop()` on every track of a stream
    | ClearInterval(timer: Handle)      // `clearInterval`
    | CloseContext(context: Handle)     // `AudioContext.close()`
    | CloseSocket                       // `WebSocket.close()`

  /** What the `onmessage` handler does with one inbound frame. */
  datatype Inbound =
    | PlayChunk(base64: string)         // decode and enqueue
    | AppendAssistant(text: Option<Json>)
    | Ignore

  const PlaybackChannels: nat := 1
  const PlaybackSampleRate: nat := 24000
  const CaptureSampleRate: nat := 16000
  const WebSocketErrorText: string := "WebSocket error occurred"
  const MicrophoneErrorPrefix: string := "Failed to access microphone: "
  const CameraErrorPrefix: string := "Failed to access camera: "

  /** `JSON.stringify`-ready form of the configuration. */
  function ConfigJson(c: Config): (j: Json)
    ensures j.JObj? && j.fields.Keys == {"systemPrompt", "voice", "googleSearch", "allowInterruptions"}
    ensures Member(j, "voice") == Some(JStr(c.voice))
    ensures Member(j, "systemPrompt") == Some(JStr(c.systemPrompt))
  {
    JObj(map["systemPrompt" := JStr(c.systemPrompt), "voice" := JStr(c.voice),
             "googleSearch" := JBool(c.googleSearch), "allowInterruptions" := JBool(c.allowInterruptions)])
  }

  /** `{type: "config", config}`, the first message on every connection. */
  function ConfigMessage(c: Config): (j: Json)
    ensures Member(j, "type") == Some(JStr("config"))
    ensures Member(j, "config") == Some(ConfigJson(c))
  {
    Tagged("config", "config", ConfigJson(c))
  }

  /** `{type: "audio", data}`, one captured block. */
  function AudioMessage(data: string): (j: Json)
    ensures Member(j, "type") == Some(JStr("audio"))
    ensures Member(j, "data") == Some(JStr(data))
  {
    Tagged("audio", "data", JStr(data))
  }

  /** The JSON object each outbound message is stringified from. */
  function Wire(m: Outbound): (j: Json)
    ensures m.ConfigFrame? ==> Member(j, "type") == Some(JStr("config"))
    ensures m.AudioFrame? ==> Member(j, "type") == Some(JStr("audio"))
  {
    match m
    case ConfigFrame(c) => ConfigMessage(c)
    case AudioFrame(data) => AudioMessage(data)
  }

  /**
   * The base64 text a captured block is sent as: its int16 samples, split into
   * little-endian byte pairs, one character per byte, through `btoa`.
   */
  function AudioPayload(block: seq<real>, btoa: string -> string): string {
    btoa(Pcm.BinaryString(Pcm.SplitSamples(Pcm.Pcm16Of(block))))
  }

  /**
   * The dispatch of `onmessage` on the parsed frame (`None` when `JSON.parse`
   * throws): by the string in `type`, audio with string data is played, text is
   * appended as an assistant message, anything else is dropped.
   */
  function Dispatch(raw: Option<Json>): (r: Inbound)
    ensures r.PlayChunk? <==>
      raw.Some? && Member(raw.value, "type") == Some(JStr("audio")) &&
      Member(raw.value, "data").Some? && Member(raw.value, "data").value.JStr?
    ensures r.PlayChunk? ==> Member(raw.value, "data") == Some(JStr(r.base64))
    ensures r.AppendAssistant? <==> raw.Some? && Member(raw.value, "type") == Some(JStr("text"))
    ensures r.AppendAssistant? ==> r.text == Member(raw.value, "text")
  {
    if raw.None? then Ignore
    else
      var kind := Member(raw.value, "type");
      if kind == Some(JStr("audio")) then
        match Member(raw.value, "data")
        case Some(JStr(s)) => PlayChunk(s)
        case _ => Ignore
      else if kind == Some(JStr("text")) then
        AppendAssistant(Member(raw.value, "text"))
      else Ignore
  }

  /**
   * The samples `base64ToFloat32Array` yields for an audio reply: `None` when
   * `atob` throws or the decoded byte count is odd.
   */
  function DecodedChunk(base64: string, atob: string -> Option<string>): (r: Option<seq<real>>)
    ensures r.Some? <==> atob(base64).Some? && |atob(base64).value| % 2 == 0
    ensures r.Some? ==> r.value == Pcm.FloatsOf(Pcm.PairBytes(Pcm.Latin1Bytes(atob(base64).value)))
  {
    match atob(base64)
    case Some(binary) =>
      if |binary| % 2 == 0 then Some(Pcm.FloatsOf(Pcm.PairBytes(Pcm.Latin1Bytes(binary)))) else None
    case None => None
  }

  function MicrophoneRelease(audioInput: Option<AudioInput>): seq<Effect> {
    match audioInput
    case Some(input) => [Disconnect(input.source), Disconnect(input.processor), StopTracks(input.stream)]
    case None => []
  }

  function CameraRelease(videoStream: Option<Handle>): seq<Effect> {
    match videoStream case Some(v) => [StopTracks(v)] case None => []
  }

  function TimerRelease(videoInterval: Option<Handle>): seq<Effect> {
    match videoInterval case Some(t) => [ClearInterval(t)] case None => []
  }

  function ContextRelease(audioContext: Option<AudioContext>): seq<Effect> {
    match audioContext case Some(c) => [CloseContext(c.handle)] case None => []
  }

  function SocketRelease(ws: Option<Socket>): seq<Effect> {
    match ws case Some(_) => [CloseSocket] case None => []
  }

  /**
   * The calls `stopStream` makes, in order, for the handles it finds: the
   * microphone nodes and stream, the camera stream, the frame timer, the audio
   * context, then the socket.
   */
  function Teardown(audioInput: Option<AudioInput>, videoStream: Option<Handle>,
                    videoInterval: Option<Handle>, audioContext: Option<AudioContext>,
                    ws: Option<Socket>): seq<Effect>
  {
    MicrophoneRelease(audioInput) + CameraRelease(videoStream) + TimerRelease(videoInterval)
    + ContextRelease(audioContext) + SocketRelease(ws)
  }

  /**
   * A teardown releases something exactly when some handle is present; the socket
   * is closed exactly when there is one, and last; the audio context is closed
   * exactly when there is one, after the capture devices.
   */
  lemma TeardownReleases(audioInput: Option<AudioInput>, videoStream: Option<Handle>,
                         videoInterval: Option<Handle>, audioContext: Option<AudioContext>,
                         ws: Option<Socket>)
    ensures var r := Teardown(audioInput, videoStream, videoInterval, audioContext, ws);
      && (r == [] <==>
           audioInput.None? && videoStream.None? && videoInterval.None? && audioContext.None? && ws.None?)
      && (ws.Some? <==> CloseSocket in r)
      && (ws.Some? ==> r[|r| - 1] == CloseSocket)
      && (audioContext.Some? ==> CloseContext(audioContext.value.handle) in r)
  {
  }

  /**
   * The releasing half of `stopStream`: each handle, if present, in the handler's
   * order.
   */
  method ReleaseHandles(audioInput: Option<AudioInput>, videoStream: Option<Handle>,
                        videoInterval: Option<Handle>, audioContext: Option<AudioContext>,
                        ws: Option<Socket>) returns (released: seq<Effect>)
    ensures released == Teardown(audioInput, videoStream, videoInterval, audioContext, ws)
  {
    released := [];
    if audioInput.Some? {
      var input := audioInput.value;
      released := released + [Disconnect(input.source), Disconnect(input.processor), StopTracks(input.stream)];
    }
    assert released == MicrophoneRelease(audioInput);
    if videoStream.Some? {
      released := released + [StopTracks(videoStream.value)];
    }
    assert released == MicrophoneRelease(audioInput) + CameraRelease(videoStream);
    if videoInterval.Some? {
      released := released + [ClearInterval(videoInterval.value)];
    }
    assert released == MicrophoneRelease(audioInput) + CameraRelease(videoStream) + TimerRelease(videoInterval);
    if audioContext.Some? {
      released := released + [CloseContext(audioContext.value.handle)];
    }
    assert released == MicrophoneRelease(audioInput) + CameraRelease(videoStream) + TimerRelease(videoInterval)
      + ContextRelease(audioContext);
    if ws.Some? {
      released := released + [CloseSocket];
    }
  }

  /**
   * The playback queue holds exactly the enqueued chunks not yet taken, in order,
   * and the source playing, if any, plays the last chunk taken, as one channel at
   * 24 kHz.
   */
  ghost predicate QueueInvariant(enqueued: seq<seq<real>>, played: seq<seq<real>>,
                                 audioBuffer: seq<seq<real>>, playing: Option<PlaybackBuffer>)
  {
    && enqueued == played + audioBuffer
    && (playing.Some? ==>
          played != [] &&
          playing.value == PlaybackBuffer(PlaybackChannels, PlaybackSampleRate, played[|played| - 1]))
  }

  /**
   * A source plays only while the flag is up. The flag without a source means the
   * last chunk taken was empty: `createBuffer` refused it and nothing will call back.
   */
  ghost predicate FlagInvariant(isPlaying: bool, playing: Option<PlaybackBuffer>, played: seq<seq<real>>) {
    && (playing.Some? ==> isPlaying)
    && (isPlaying && playing.None? ==> played != [] && played[|played| - 1] == [])
  }

  /**
   * Nothing is sent before the socket opens, an open socket has sent something,
   * and the first message on it is the configuration.
   */
  ghost predicate SocketInvariant(ws: Option<Socket>, config: Config) {
    ws.Some? ==>
      && (ws.value.readyState == Connecting ==> ws.value.sent == [])
      && (ws.value.readyState == Open ==> ws.value.sent != [])
      && (ws.value.sent != [] ==> ws.value.sent[0] == ConfigFrame(config))
  }

  class Session {
    /**
     * The configuration the handlers of the current socket send: the page's
     * `config` state as it was when `startStream` created them.
     */
    var config: Config
    var isStreaming: bool
    var isConnected: bool
    var error: Option<string>
    var messages: seq<Message>

    /** `wsRef` and the mode its handlers were created for. */
    var ws: Option<Socket>
    var mode: Mode
    var audioContext: Option<AudioContext>
    var audioInput: Option<AudioInput>
    var videoStream: Option<Handle>
    var videoInterval: Option<Handle>

    /** Calls made on browser objects, oldest first. */
    var effects: seq<Effect>

    /** The playback FIFO, its flag, and the buffer source currently playing. */
    var audioBuffer: seq<seq<real>>
    var isPlaying: bool
    var playing: Option<PlaybackBuffer>

    /** Every chunk ever enqueued, and every chunk taken off the queue, in order. */
    ghost var enqueued: seq<seq<real>>
    ghost var played: seq<seq<real>>

    ghost predicate QueueValid()
      reads this`enqueued, this`played, this`audioBuffer, this`playing
    {
      QueueInvariant(enqueued, played, audioBuffer, playing)
    }

    ghost predicate Valid()
      reads this`enqueued, this`played, this`audioBuffer, this`playing, this`isPlaying, this`ws, this`config
    {
      && QueueValid()
      && FlagInvariant(isPlaying, playing, played)
      && SocketValid()
    }

    ghost predicate SocketValid()
      reads this`ws, this`config
    {
      SocketInvariant(ws, config)
    }

    /** The component's initial state. */
    constructor (config: Config)
      ensures Valid()
      ensures this.config == config
      ensures !isStreaming && !isConnected && error.None? && messages == []
      ensures ws.None? && audioContext.None? && audioInput.None? && videoStream.None? && videoInterval.None?
      ensures audioBuffer == [] && !isPlaying && playing.None? && effects == []
    {
      this.config := config;
      isStreaming := false;
      isConnected := false;
      error := None;
      messages := [];
      ws := None;
      mode := TextMode;
      audioContext := None;
      audioInput := None;
      videoStream := None;
      videoInterval := None;
      effects := [];
      audioBuffer := [];
      isPlaying := false;
      playing := None;
      enqueued := [];
      played := [];
    }

    /** `addMessage`: one entry at the end of the log, earlier entries kept. */
    method AddMessage(text: Option<Json>, sender: Sender, id: string, timestamp: int)
      requires Valid()
      modifies this`messages
      ensures Valid()
      ensures messages == old(messages) + [Message(id, text, timestamp, sender)]
      ensures |messages| == |old(messages)| + 1 && messages[..|old(messages)|] == old(messages)
    {
      messages := messages + [Message(id, text, timestamp, sender)];
    }

    /**
     * `startStream(mode)`: a new connecting socket in `wsRef`, whose handlers keep
     * the mode and the configuration `c` the page holds at this render; nothing is
     * sent yet.
     */
    method StartStream(m: Mode, c: Config)
      requires Valid()
      modifies this`ws, this`mode, this`config
      ensures Valid()
      ensures ws == Some(Socket(Connecting, [])) && mode == m && config == c
    {
      ws := Some(Socket(Connecting, []));
      mode := m;
      config := c;
    }

    /**
     * `startAudioStream`: a 16 kHz audio context, then the microphone; `mic` is what
     * `getUserMedia` gave (its error message on refusal).
     */
    method StartAudioStream(context: Handle, mic: Result<AudioInput, string>)
      requires Valid()
      modifies this`error, this`audioContext, this`audioInput
      ensures Valid()
      ensures audioContext == Some(AudioContext(context, CaptureSampleRate))
      ensures mic.Success? ==> audioInput == Some(mic.value) && error == old(error)
      ensures mic.Failure? ==> audioInput == old(audioInput) && error == Some(MicrophoneErrorPrefix + mic.error)
    {
      audioContext := Some(AudioContext(context, CaptureSampleRate));
      match mic
      case Success(input) =>
        audioInput := Some(input);
      case Failure(message) =>
        error := Some(MicrophoneErrorPrefix + message);
    }

    /**
     * `startVideo`: the camera stream and a one-second frame timer, kept only when
     * the page has its video element.
     */
    method StartVideo(camera: Result<Handle, string>, timer: Handle, hasVideoElement: bool)
      requires Valid()
      modifies this`error, this`videoStream, this`videoInterval
      ensures Valid()
      ensures camera.Success? && hasVideoElement ==>
        videoStream == Some(camera.value) && videoInterval == Some(timer) && error == old(error)
      ensures camera.Success? && !hasVideoElement ==>
        videoStream == old(videoStream) && videoInterval == old(videoInterval) && error == old(error)
      ensures camera.Failure? ==>
        videoStream == old(videoStream) && videoInterval == old(videoInterval) &&
        error == Some(CameraErrorPrefix + camera.error)
    {
      match camera
      case Success(stream) =>
        if hasVideoElement {
          videoStream := Some(stream);
          videoInterval := Some(timer);
        }
      case Failure(message) =>
        error := Some(CameraErrorPrefix + message);
    }

    /**
     * The capture the `open` handler starts for the current mode: audio in audio
     * and video mode, then the camera in video mode only.
     */
    method StartCapture(context: Handle, mic: Result<AudioInput, string>,
                        camera: Result<Handle, string>, timer: Handle, hasVideoElement: bool)
      requires Valid()
      modifies this`error, this`audioContext, this`audioInput, this`videoStream, this`videoInterval
      ensures Valid()
      ensures mode == TextMode ==> audioContext == old(audioContext) && audioInput == old(audioInput)
      ensures mode != TextMode ==> audioContext == Some(AudioContext(context, CaptureSampleRate))
      ensures mode != TextMode && mic.Success? ==> audioInput == Some(mic.value)
      ensures mode != VideoMode ==> videoStream == old(videoStream) && videoInterval == old(videoInterval)
      ensures mode == VideoMode && camera.Success? && hasVideoElement ==>
        videoStream == Some(camera.value) && videoInterval == Some(timer)
    {
      if mode == AudioMode || mode == VideoMode {
        StartAudioStream(context, mic);
      }
      if mode == VideoMode {
        StartVideo(camera, timer, hasVideoElement);
      }
    }

    /**
     * The socket's `open` event and its handler: the configuration goes out first,
     * then capture starts for the mode, and the session is marked streaming and
     * connected.
     */
    method OnOpen(context: Handle, mic: Result<AudioInput, string>,
                  camera: Result<Handle, string>, timer: Handle, hasVideoElement: bool)
      requires Valid()
      requires ws.Some? && ws.value.readyState == Connecting
      modifies this`isStreaming, this`isConnected, this`error, this`ws, this`audioContext, this`audioInput,
               this`videoStream, this`videoInterval
      ensures Valid()
      ensures ws == Some(Socket(Open, [ConfigFrame(config)]))
      ensures isStreaming && isConnected
      ensures mode == TextMode ==> audioContext == old(audioContext) && audioInput == old(audioInput)
      ensures mode != TextMode ==> audioContext == Some(AudioContext(context, CaptureSampleRate))
      ensures mode != TextMode && mic.Success? ==> audioInput == Some(mic.value)
      ensures mode != VideoMode ==> videoStream == old(videoStream) && videoInterval == old(videoInterval)
      ensures mode == VideoMode && camera.Success? && hasVideoElement ==>
        videoStream == Some(camera.value) && videoInterval == Some(timer)
    {
      assert ws.value.sent == [];
      ws := Some(Socket(Open, [ConfigFrame(config)]));
      StartCapture(context, mic, camera, timer, hasVideoElement);
      isStreaming := true;
      isConnected := true;
    }

    /**
     * The script processor's `audioprocess` event: the captured block is converted
     * and sent only while the socket is open; otherwise it is dropped and nothing
     * changes.
     */
    method OnAudioProcess(block: array<real>, btoa: string -> string)
      requires Valid()
      requires audioInput.Some?
      modifies this`ws
      ensures Valid()
      ensures old(ws).Some? && old(ws).value.readyState == Open ==>
        ws == Some(Socket(Open, old(ws).value.sent + [AudioFrame(AudioPayload(block[..], btoa))]))
      ensures !(old(ws).Some? && old(ws).value.readyState == Open) ==> ws == old(ws)
    {
      if ws.Some? && ws.value.readyState == Open {
        var pcmData := Pcm.Float32ToPcm16(block);
        var base64Data := btoa(Pcm.BinaryString(Pcm.SplitSamples(pcmData[..])));
        assert pcmData[..] == Pcm.Pcm16Of(block[..]);
        ws := Some(Socket(Open, ws.value.sent + [AudioFrame(base64Data)]));
      }
    }

    /**
     * `playNextInQueue`. With no audio context or an empty queue the flag drops and
     * nothing is taken. Otherwise the flag goes up and the head chunk is taken and
     * started as a one-channel 24 kHz buffer of its own length; an empty chunk makes
     * `createBuffer` throw after it was taken, so nothing plays.
     */
    method PlayNextInQueue()
      requires QueueValid() && SocketValid() && playing.None?
      modifies this`audioBuffer, this`isPlaying, this`playing, this`played
      ensures Valid()
      ensures old(audioContext).None? || old(audioBuffer) == [] ==>
        !isPlaying && audioBuffer == old(audioBuffer) && playing.None? && played == old(played)
      ensures old(audioContext).Some? && old(audioBuffer) != [] ==>
        && isPlaying
        && audioBuffer == old(audioBuffer)[1..]
        && played == old(played) + [old(audioBuffer)[0]]
        && playing == (if old(audioBuffer)[0] == [] then None
                       else Some(PlaybackBuffer(PlaybackChannels, PlaybackSampleRate, old(audioBuffer)[0])))
    {
      if audioContext.None? || |audioBuffer| == 0 {
        isPlaying := false;
        return;
      }
      isPlaying := true;
      var audioData := audioBuffer[0];
      audioBuffer := audioBuffer[1..];
      played := played + [audioData];
      if |audioData| > 0 {
        playing := Some(PlaybackBuffer(PlaybackChannels, PlaybackSampleRate, audioData));
      }
    }

    /**
     * `playAudioData`: the chunk joins the tail of the queue; playback is started
     * only when the flag is down.
     */
    method PlayAudioData(chunk: seq<real>)
      requires Valid()
      modifies this`audioBuffer, this`isPlaying, this`playing, this`enqueued, this`played
      ensures Valid()
      ensures enqueued == old(enqueued) + [chunk]
      ensures old(isPlaying) ==>
        audioBuffer == old(audioBuffer) + [chunk] && isPlaying && playing == old(playing) && played == old(played)
      ensures !old(isPlaying) && old(audioContext).Some? ==>
        && played == old(played) + [(old(audioBuffer) + [chunk])[0]]
        && audioBuffer == (old(audioBuffer) + [chunk])[1..]
        && isPlaying
        && playing == (if (old(audioBuffer) + [chunk])[0] == [] then None
                       else Some(PlaybackBuffer(PlaybackChannels, PlaybackSampleRate, (old(audioBuffer) + [chunk])[0])))
      ensures !old(isPlaying) && old(audioContext).None? ==>
        audioBuffer == old(audioBuffer) + [chunk] && !isPlaying && played == old(played)
    {
      audioBuffer := audioBuffer + [chunk];
      enqueued := enqueued + [chunk];
      if !isPlaying {
        PlayNextInQueue();
      }
    }

    /** The playing source's `ended` event: it is gone, and the next chunk starts. */
    method OnEnded()
      requires Valid() && playing.Some?
      modifies this`audioBuffer, this`isPlaying, this`playing, this`played
      ensures Valid()
      ensures old(audioContext).Some? && old(audioBuffer) != [] ==>
        && played == old(played) + [old(audioBuffer)[0]]
        && audioBuffer == old(audioBuffer)[1..]
        && isPlaying
        && playing == (if old(audioBuffer)[0] == [] then None
                       else Some(PlaybackBuffer(PlaybackChannels, PlaybackSampleRate, old(audioBuffer)[0])))
      ensures old(audioContext).None? || old(audioBuffer) == [] ==>
        !isPlaying && playing.None? && audioBuffer == old(audioBuffer) && played == old(played)
    {
      playing := None;
      PlayNextInQueue();
    }

    /**
     * The socket's `message` event. `raw` is the parsed frame (`None` when
     * `JSON.parse` throws), `atob` the browser's base64 decoder, `id` and
     * `timestamp` the clock readings `addMessage` takes. A chunk that fails to
     * decode throws inside the handler and changes nothing.
     */
    method OnMessage(raw: Option<Json>, atob: string -> Option<string>, id: string, timestamp: int)
      requires Valid()
      modifies this`messages, this`audioBuffer, this`isPlaying, this`playing, this`enqueued, this`played
      ensures Valid()
      ensures Dispatch(raw).AppendAssistant? ==>
        && messages == old(messages) + [Message(id, Dispatch(raw).text, timestamp, Assistant)]
        && audioBuffer == old(audioBuffer) && enqueued == old(enqueued) && played == old(played)
        && isPlaying == old(isPlaying) && playing == old(playing)
      ensures Dispatch(raw).PlayChunk? ==> messages == old(messages)
      // an audio reply that decodes goes through `playAudioData`: queued behind a playing chunk,
      // or started at once from idle
      ensures Dispatch(raw).PlayChunk? && DecodedChunk(Dispatch(raw).base64, atob).Some? ==>
        var chunk := DecodedChunk(Dispatch(raw).base64, atob).value;
        && enqueued == old(enqueued) + [chunk]
        && (old(isPlaying) ==>
              audioBuffer == old(audioBuffer) + [chunk] && isPlaying && playing == old(playing) &&
              played == old(played))
        && (!old(isPlaying) && old(audioContext).Some? ==>
              && played == old(played) + [(old(audioBuffer) + [chunk])[0]]
              && audioBuffer == (old(audioBuffer) + [chunk])[1..]
              && isPlaying
              && playing == (if (old(audioBuffer) + [chunk])[0] == [] then None
                             else Some(PlaybackBuffer(PlaybackChannels, PlaybackSampleRate,
                                                      (old(audioBuffer) + [chunk])[0]))))
        && (!old(isPlaying) && old(audioContext).None? ==>
              audioBuffer == old(audioBuffer) + [chunk] && !isPlaying && played == old(played))
      // an audio reply that does not decode throws inside the handler and changes nothing
      ensures Dispatch(raw).PlayChunk? && DecodedChunk(Dispatch(raw).base64, atob).None? ==>
        && enqueued == old(enqueued) && audioBuffer == old(audioBuffer) && played == old(played)
        && isPlaying == old(isPlaying) && playing == old(playing)
      ensures Dispatch(raw).Ignore? ==>
        messages == old(messages) && audioBuffer == old(audioBuffer) && enqueued == old(enqueued) &&
        played == old(played) && isPlaying == old(isPlaying) && playing == old(playing)
    {
      match Dispatch(raw)
      case PlayChunk(base64) =>
        var decoded := Pcm.Base64ToFloat32Array(base64, atob);
        if decoded.Success? {
          PlayAudioData(decoded.value[..]);
        }
      case AppendAssistant(text) =>
        AddMessage(text, Assistant, id, timestamp);
      case Ignore =>
    }

    /** The socket's `error` event. */
    method OnError()
      requires Valid()
      modifies this`isStreaming, this`error
      ensures Valid()
      ensures error == Some(WebSocketErrorText) && !isStreaming
    {
      error := Some(WebSocketErrorText);
      isStreaming := false;
    }

    /**
     * The socket's `close` event: the socket is closed and the session is neither
     * streaming nor connected. The reference stays in `wsRef`, so capture goes on
     * and every later block meets the closed gate.
     */
    method OnClose()
      requires Valid()
      modifies this`isStreaming, this`isConnected, this`ws
      ensures Valid()
      ensures !isStreaming && !isConnected
      ensures old(ws).Some? ==> ws == Some(Socket(Closed, old(ws).value.sent))
      ensures old(ws).None? ==> ws.None?
    {
      if ws.Some? {
        ws := Some(Socket(Closed, ws.value.sent));
      }
      isStreaming := false;
      isConnected := false;
    }

    /**
     * `stopStream`: every handle that is present is released, in a fixed order, and
     * cleared; the session ends neither streaming nor connected. The playback queue
     * and its flag are left as they are.
     */
    method StopStream()
      requires Valid()
      modifies this`effects, this`audioInput, this`videoStream, this`videoInterval, this`audioContext, this`ws,
               this`isStreaming, this`isConnected
      ensures Valid()
      ensures effects == old(effects) +
        Teardown(old(audioInput), old(videoStream), old(videoInterval), old(audioContext), old(ws))
      ensures audioInput.None? && videoStream.None? && videoInterval.None? && audioContext.None? && ws.None?
      ensures !isStreaming && !isConnected
    {
      var released := ReleaseHandles(audioInput, videoStream, videoInterval, audioContext, ws);
      effects := effects + released;
      ClearHandles();
    }

    /** The second half of `stopStream`: every reference is dropped and both flags go down. */
    method ClearHandles()
      requires Valid()
      modifies this`audioInput, this`videoStream, this`videoInterval, this`audioContext, this`ws,
               this`isStreaming, this`isConnected
      ensures Valid()
      ensures audioInput.None? && videoStream.None? && videoInterval.None? && audioContext.None? && ws.None?
      ensures !isStreaming && !isConnected
    {
      audioInput, videoStream, videoInterval, audioContext, ws := None, None, None, None, None;
      isStreaming := false;
      isConnected := false;
    }
  }

  /**
   * Two chunks arriving at an idle session with an audio context: the first
   * starts playing at once, the second only queues behind it, and when the first
   * ends the second plays, so the chunks play in arrival order, one at a time.
   */
  method TwoChunksPlayInOrder(s: Session, a: seq<real>, b: seq<real>)
    requires s.Valid() && s.audioContext.Some? && !s.isPlaying && s.audioBuffer == []
    requires a != [] && b != []
    modifies s`audioBuffer, s`isPlaying, s`playing, s`enqueued, s`played
    ensures s.Valid()
    ensures s.played == old(s.played) + [a, b] && s.audioBuffer == []
    ensures s.isPlaying && s.playing == Some(PlaybackBuffer(PlaybackChannels, PlaybackSampleRate, b))
  {
    s.PlayAudioData(a);
    assert s.playing == Some(PlaybackBuffer(PlaybackChannels, PlaybackSampleRate, a));
    s.PlayAudioData(b);
    assert s.audioBuffer == [b] && s.playing == Some(PlaybackBuffer(PlaybackChannels, PlaybackSampleRate, a));
    s.OnEnded();
  }

  /**
   * `stopStream` on a stopped session (no handle held, both flags down) releases
   * nothing and changes nothing.
   */
  method StopStreamWhenStopped(s: Session)
    requires s.Valid()
    requires s.audioInput.None? && s.videoStream.None? && s.videoInterval.None? && s.audioContext.None?
    requires s.ws.None? && !s.isStreaming && !s.isConnected
    modifies s`effects, s`audioInput, s`videoStream, s`videoInterval, s`audioContext, s`ws,
             s`isStreaming, s`isConnected
    ensures unchanged(s)
  {
    assert Teardown(s.audioInput, s.videoStream, s.videoInterval, s.audioContext, s.ws) == [];
    s.StopStream();
    assert s.effects == old(s.effects);
  }

  /**
   * Stopping twice: the second call releases nothing more, and both calls together
   * leave exactly the state the first one left; the log, the playback queue and its
   * flag are untouched throughout.
   */
  method StopStreamTwice(s: Session)
    requires s.Valid()
    modifies s`effects, s`audioInput, s`videoStream, s`videoInterval, s`audioContext, s`ws,
             s`isStreaming, s`isConnected
    ensures s.Valid()
    ensures s.effects == old(s.effects) +
      Teardown(old(s.audioInput), old(s.videoStream), old(s.videoInterval), old(s.audioContext), old(s.ws))
    ensures s.audioInput.None? && s.videoStream.None? && s.videoInterval.None? && s.audioContext.None?
    ensures s.ws.None? && !s.isStreaming && !s.isConnected
    ensures s.messages == old(s.messages) && s.error == old(s.error) && s.config == old(s.config)
    ensures s.audioBuffer == old(s.audioBuffer) && s.isPlaying == old(s.isPlaying) && s.playing == old(s.playing)
  {
    s.StopStream();
    StopStreamWhenStopped(s);
  }
}
