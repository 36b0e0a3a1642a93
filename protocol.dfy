/**
 * The wire protocol between the chat page and the backend relay, read from both
 * ends: what the backend makes of each message the page sends, and what the page
 * makes of each message the backend sends.
 */
module Protocol {
  import opened Common
  import opened JsonValue
  import Pcm
  import ChatSession
  import Relay

  /**
   * The page's first message passes the backend's configuration check, and the
   * setup message sent to Gemini carries the page's voice and system prompt.
   */
  lemma ConfigFrameAccepted(c: ChatSession.Config)
    ensures Relay.ConfigOf(Some(ChatSession.Wire(ChatSession.ConfigFrame(c)))) == Success(ChatSession.ConfigJson(c))
    ensures Relay.Setup(ChatSession.ConfigJson(c)) == Success(Relay.SetupMessage(JStr(c.voice), JStr(c.systemPrompt)))
  {
    var j := ChatSession.ConfigJson(c);
    assert "voice" in j.fields;
    assert Truthy(j);
  }

  /** A captured audio block reaches Gemini as one `audio/pcm` media chunk holding the same base64 text. */
  lemma AudioFrameForwarded(data: string)
    ensures Relay.Route(ChatSession.Wire(ChatSession.AudioFrame(data))) == Some(Relay.Request(Relay.AudioKind, JStr(data)))
    ensures Relay.MediaChunkOf(Relay.Encode(Relay.Request(Relay.AudioKind, JStr(data)))) ==
            Some((JStr(data), JStr(Relay.AudioMime)))
  {
  }

  /**
   * The base64 text of a captured block decodes, on any receiver that reads it
   * back as the page's own decoder does, to the block's int16 samples, provided
   * `atob` inverts `btoa` on binary strings.
   */
  lemma AudioPayloadDecodes(block: seq<real>, btoa: string -> string, atob: string -> Option<string>)
    requires forall s: string :: (forall i :: 0 <= i < |s| ==> (s[i] as int) < 256) ==> atob(btoa(s)) == Some(s)
    ensures atob(ChatSession.AudioPayload(block, btoa)).Some?
    ensures |atob(ChatSession.AudioPayload(block, btoa)).value| % 2 == 0
    ensures Pcm.PairBytes(Pcm.Latin1Bytes(atob(ChatSession.AudioPayload(block, btoa)).value)) == Pcm.Pcm16Of(block)
  {
    var samples := Pcm.Pcm16Of(block);
    var binary := Pcm.BinaryString(Pcm.SplitSamples(samples));
    assert forall i :: 0 <= i < |binary| ==> (binary[i] as int) < 256;
    assert atob(btoa(binary)) == Some(binary);
    assert Pcm.Latin1Bytes(binary) == Pcm.SplitSamples(samples);
    Pcm.PairSplit(samples);
  }

  /** An audio reply with string data is decoded and queued for playback by the page. */
  lemma AudioReplyPlayed(data: string)
    ensures ChatSession.Dispatch(Some(Relay.AudioReply(JStr(data)))) == ChatSession.PlayChunk(data)
  {
  }

  /**
   * A text reply is appended to the page's log, but without its text: the backend
   * puts the text under `data` and the page reads `text`, so every assistant
   * entry the backend produces has `undefined` text.
   */
  lemma TextReplyLosesText(t: Json)
    ensures ChatSession.Dispatch(Some(Relay.TextReply(t))) == ChatSession.AppendAssistant(None)
  {
    assert "text" !in Relay.TextReply(t).fields;
  }

  /** The turn-complete marker is dropped by the page. */
  lemma TurnCompleteIgnored()
    ensures ChatSession.Dispatch(Some(Relay.TurnCompleteReply())) == ChatSession.Ignore
  {
  }

  /**
   * Every message the relay sends the page is either played, appended without
   * text, or dropped; none is misread as another kind.
   */
  lemma RepliesDispatch(m: Json)
    requires Relay.IsReply(m)
    ensures ChatSession.Dispatch(Some(m)).PlayChunk? ==> Member(m, "type") == Some(JStr("audio"))
    ensures ChatSession.Dispatch(Some(m)).AppendAssistant? <==> Member(m, "type") == Some(JStr("text"))
    ensures Member(m, "type") == Some(JStr("turn_complete")) ==> ChatSession.Dispatch(Some(m)) == ChatSession.Ignore
  {
  }
}
