/** `MultimodalAgent` of `in_progress/streaming-test/app/agent.py`, the
    working copy of `streaming-test/app/agent.py`. It reads replies through
    the guarded `candidates[0].content.parts[0].text` path instead of
    `response.text`, `send_message` answers `None` instead of raising, and
    the voice interaction reports an empty reply as text but only synthesises
    a reply that is not blank. */
module StreamingAgentDraft {
  import opened Wrappers
  import opened Text
  import opened GenAi
  import opened VideoUtils
  import opened Multimodal

  /** What `send_text_message` returns: the first part's text, or `""` when
      the response lacks it. The SDK's exception is re-raised. */
  function TextReply(outcome: ModelOutcome): (r: Result<string, SendError>)
    ensures r.Failure? <==> outcome.ModelError?
    ensures r.Failure? ==> r.error == ModelRaised
    ensures r.Success? ==> r.value == FirstPartText(outcome.response)
  {
    if outcome.ModelError? then Failure(ModelRaised) else Success(FirstPartText(outcome.response))
  }

  /** What `send_message` returns: `None` for a call with nothing to send
      and for a model error, the first part's text otherwise. */
  function SendOrNone(text: string, images: seq<Part>, audio: seq<Part>, video: seq<Part>,
                      outcome: ModelOutcome): (r: Option<string>)
    ensures r.None? <==> PromptParts(text, images, audio, video) == [] || outcome.ModelError?
    ensures r.Some? ==> r.value == FirstPartText(outcome.response)
  {
    PromptEmptyIffNoContent(text, images, audio, video);
    if NoContent(text, images, audio, video) then None
    else if outcome.ModelError? then None
    else Some(FirstPartText(outcome.response))
  }

  /** What `handle_voice_interaction` puts on the queue and plays. The reply
      check of this copy tests for `None`, which `send_text_message` never
      returns, so "Model did not respond." is never reported; an empty reply
      is passed on to the UI and only a reply that is not blank is
      synthesised. */
  function VoiceRun(io: VoiceIo): (t: VoiceTrace)
    ensures Status(ModelDidNotRespond) !in t.events
    ensures Status(AudioRecordingFailed) in t.events <==> !HasBytes(io.recording)
    ensures Status(TranscriptionFailed) in t.events <==> HasBytes(io.recording) && io.transcript.None?
    ensures Status(NoSpeechDetected) in t.events <==> HasBytes(io.recording) && io.transcript == Some("")
    ensures t.raised <==> Heard(io) && io.reply.ModelError?
    ensures Heard(io) <==> |t.events| > 0 && t.events[0] == Transcription(io.transcript.GetOr(""))
    ensures Heard(io) && io.reply.Replied? ==>
      t.events == [Transcription(io.transcript.value), ModelResponseAudioText(FirstPartText(io.reply.response))]
    ensures t.played.Some? <==>
      && Heard(io) && io.reply.Replied? && !IsBlank(FirstPartText(io.reply.response))
      && HasBytes(io.synthesis)
    ensures t.played.Some? ==> t.played == io.synthesis
    ensures t.raised ==> t.events == [Transcription(io.transcript.value)] && t.played.None?
    ensures 0 < |t.events| <= 2
    ensures forall i :: 0 <= i < |t.events| - 1 ==> !t.events[i].Status?
  {
    if !HasBytes(io.recording) then VoiceTrace([Status(AudioRecordingFailed)], None, false)
    else if io.transcript.None? then VoiceTrace([Status(TranscriptionFailed)], None, false)
    else if io.transcript.value == "" then VoiceTrace([Status(NoSpeechDetected)], None, false)
    else
      var heard := [Transcription(io.transcript.value)];
      if io.reply.ModelError? then VoiceTrace(heard, None, true)
      else
        var reply := FirstPartText(io.reply.response);
        var said := heard + [ModelResponseAudioText(reply)];
        if !IsBlank(reply) && HasBytes(io.synthesis) then VoiceTrace(said, io.synthesis, false)
        else VoiceTrace(said, None, false)
  }

  /** The comment the video check puts on the queue: a reply that is
      present and not empty. */
  function CommentEvents(reply: Option<string>): (events: seq<UiEvent>)
    ensures |events| <= 1
    ensures events != [] <==> reply.Some? && reply.value != ""
    ensures events != [] ==> events == [VideoChangeComment(reply.value)]
  {
    if reply.Some? && reply.value != "" then [VideoChangeComment(reply.value)] else []
  }

  class MultimodalAgent {
    const projectId: string
    const location: string
    const modelName: string
    const monitor: VideoMonitor
    var chat: Option<ChatSession>

    /** The state `__init__` leaves behind once its checks have passed. */
    constructor Init(projectId: string, location: string, modelName: string, monitor: VideoMonitor)
      ensures this.projectId == projectId && this.location == location && this.modelName == modelName
      ensures this.monitor == monitor && chat.None?
    {
      this.projectId := projectId;
      this.location := location;
      this.modelName := modelName;
      this.monitor := monitor;
      chat := None;
    }

    /** `MultimodalAgent(project_id, location, model_name, camera_index)`:
        the same checks and the same one-frame-per-second monitor as the
        streaming-test copy. */
    static method Create(projectId: string, location: string, modelName: string, cameraIndex: int, sdkReady: bool)
      returns (r: Result<MultimodalAgent, InitError>)
      ensures MissingSetting(projectId, location, modelName).Some? ==>
        r == Failure(ConfigError(MissingSetting(projectId, location, modelName).value))
      ensures MissingSetting(projectId, location, modelName).None? ==> (r.Success? <==> sdkReady)
      ensures r.Failure? && sdkReady ==> r.error.ConfigError?
      ensures r.Success? ==>
        && fresh(r.value) && fresh(r.value.monitor)
        && r.value.projectId == projectId && r.value.location == location && r.value.modelName == modelName
        && r.value.chat.None?
        && r.value.monitor.cameraIndex == cameraIndex && r.value.monitor.fpsLimit == 1.0
        && r.value.monitor.cap.None? && r.value.monitor.previousFrame.None?
    {
      var missing := MissingSetting(projectId, location, modelName);
      if missing.Some? {
        return Failure(ConfigError(missing.value));
      }
      if !sdkReady {
        return Failure(SdkError);
      }
      var monitor := new VideoMonitor.UnlessFalsy(cameraIndex, Some(1.0), StreamingTestVideoFps);
      var agent := new MultimodalAgent.Init(projectId, location, modelName, monitor);
      return Success(agent);
    }

    /** The effect of `if not self.chat: self.start_chat()`. */
    twostate predicate ChatEnsured(start: ChatStart)
      reads this, monitor
    {
      && chat == (if old(chat).Some? then old(chat) else Some(start.session))
      && (old(chat).Some? || old(monitor.cap).Some? ==>
            monitor.cap == old(monitor.cap) && monitor.previousFrame == old(monitor.previousFrame))
      && (old(chat).None? && old(monitor.cap).None? ==>
            if start.cameraOpens then monitor.cap == Some(Capture(true)) && monitor.previousFrame.None?
            else monitor.cap.None? && monitor.previousFrame == old(monitor.previousFrame))
    }

    /** `start_chat`: replaces the chat, and starts the capture when there is
        no capture object. */
    method StartChat(start: ChatStart) returns (session: ChatSession)
      modifies this`chat, monitor`cap, monitor`previousFrame
      ensures chat == Some(start.session) && session == start.session
      ensures old(monitor.cap).Some? ==>
        monitor.cap == old(monitor.cap) && monitor.previousFrame == old(monitor.previousFrame)
      ensures old(monitor.cap).None? ==>
        if start.cameraOpens then monitor.cap == Some(Capture(true)) && monitor.previousFrame.None?
        else monitor.cap.None? && monitor.previousFrame == old(monitor.previousFrame)
    {
      chat := Some(start.session);
      if monitor.cap.None? {
        var _ := monitor.StartCapture(start.cameraOpens);
      }
      return start.session;
    }

    /** `stop_chat`: stops the capture if there is a capture object, and
        always forgets the chat. */
    method StopChat()
      modifies this`chat, monitor`cap, monitor`previousFrame
      ensures chat.None? && monitor.cap.None?
      ensures old(monitor.cap).Some? ==> monitor.previousFrame.None?
      ensures old(monitor.cap).None? ==> monitor.previousFrame == old(monitor.previousFrame)
    {
      if monitor.cap.Some? {
        monitor.StopCapture();
      }
      chat := None;
    }

    /** The lazy start every sending method begins with. */
    method EnsureChat(start: ChatStart)
      modifies this`chat, monitor`cap, monitor`previousFrame
      ensures ChatEnsured(start)
    {
      if chat.None? {
        var _ := StartChat(start);
      }
    }

    /** `send_text_message`: the guarded extraction of the reply text; an
        exception is re-raised. */
    method SendTextMessage(text: string, start: ChatStart, outcome: ModelOutcome)
      returns (r: Result<string, SendError>)
      modifies this`chat, monitor`cap, monitor`previousFrame
      ensures ChatEnsured(start)
      ensures r == TextReply(outcome)
    {
      EnsureChat(start);
      if outcome.ModelError? {
        return Failure(ModelRaised);
      }
      var reply := "";
      var response := outcome.response;
      if |response.candidates| > 0 && response.candidates[0].content.Some?
         && |response.candidates[0].content.value.parts| > 0
      {
        var first := response.candidates[0].content.value.parts[0].text;
        reply := if first.Some? then first.value else "";
      }
      return Success(reply);
    }

    /** `send_message`: a call with nothing to send and a model error both
        answer `None`. `sent` is what reaches `chat.send_message`. */
    method SendMessage(text: string, images: seq<Part>, audio: seq<Part>, video: seq<Part>,
                       start: ChatStart, outcome: ModelOutcome)
      returns (r: Option<string>, sent: Option<seq<Part>>)
      modifies this`chat, monitor`cap, monitor`previousFrame
      ensures ChatEnsured(start)
      ensures r == SendOrNone(text, images, audio, video, outcome)
      ensures sent.Some? <==> !NoContent(text, images, audio, video)
      ensures sent.Some? ==> sent.value == PromptParts(text, images, audio, video)
    {
      EnsureChat(start);
      if text == "" && images == [] && audio == [] && video == [] {
        return None, None;
      }
      var parts: seq<Part> := [];
      if text != "" {
        parts := parts + [TextPart(text)];
      }
      parts := parts + images;
      parts := parts + audio;
      parts := parts + video;
      sent := Some(parts);
      if outcome.ModelError? {
        return None, sent;
      }
      r := Some(FirstPartText(outcome.response));
    }

    /** The last step of `handle_voice_interaction`: the reply text goes to
        the UI, and it is spoken when it is not blank and synthesis gave
        audio. */
    static method ShowAndSpeak(reply: string, synthesis: Option<Bytes>, queue: EventQueue?)
      returns (played: Option<Bytes>)
      modifies queue
      ensures queue != null ==> queue.items == old(queue.items) + [ModelResponseAudioText(reply)]
      ensures played == if !IsBlank(reply) && HasBytes(synthesis) then synthesis else None
    {
      Enqueue(queue, ModelResponseAudioText(reply));
      StripEmptyIffBlank(reply);
      if Strip(reply) == "" || !HasBytes(synthesis) {
        return None;
      }
      return synthesis;
    }

    /** `handle_voice_interaction(event_queue=queue)`. */
    method HandleVoiceInteraction(io: VoiceIo, start: ChatStart, queue: EventQueue?)
      returns (played: Option<Bytes>, raised: bool)
      modifies this`chat, monitor`cap, monitor`previousFrame, queue
      ensures ChatEnsured(start)
      ensures queue != null ==> queue.items == old(queue.items) + VoiceRun(io).events
      ensures played == VoiceRun(io).played && raised == VoiceRun(io).raised
    {
      EnsureChat(start);
      if !HasBytes(io.recording) {
        Enqueue(queue, Status(AudioRecordingFailed));
        return None, false;
      }
      if io.transcript.None? {
        Enqueue(queue, Status(TranscriptionFailed));
        return None, false;
      }
      var heard := io.transcript.value;
      if heard == "" {
        Enqueue(queue, Status(NoSpeechDetected));
        return None, false;
      }
      ghost var before := if queue != null then queue.items else [];
      Enqueue(queue, Transcription(heard));
      var reply := SendTextMessage(heard, start, io.reply);
      if reply.Failure? {
        return None, true;
      }
      played := ShowAndSpeak(reply.value, io.synthesis, queue);
      assert queue != null ==> queue.items == before + [Transcription(heard), ModelResponseAudioText(reply.value)];
      return played, false;
    }

    /** `check_for_video_changes_and_comment(event_queue=queue)`: as in the
        streaming-test copy, except that a model error is swallowed by
        `send_message` and so never escapes. */
    method CheckForVideoChangesAndComment(queue: EventQueue?, restartOpens: bool, s: Sensor,
                                          start: ChatStart, outcome: ModelOutcome)
      returns (r: Option<ChangeResult>, sent: Option<seq<Part>>)
      modifies this`chat, monitor`cap, monitor`previousFrame, monitor`lastProcessedTime, queue
      ensures r.Some? <==> old(monitor.Capturing()) || (old(chat).Some? && restartOpens)
      ensures monitor.cap == if old(monitor.Capturing()) || old(chat).None? then old(monitor.cap)
                             else if restartOpens then Some(Capture(true)) else None
      ensures r.Some? ==> r.value == FrameOutcome(monitor.fpsLimit, old(monitor.lastProcessedTime), true, s)
      ensures monitor.lastProcessedTime ==
        if r.Some? then NextProcessedTime(monitor.fpsLimit, old(monitor.lastProcessedTime), s.now)
        else old(monitor.lastProcessedTime)
      ensures sent.Some? <==> r.Some? && r.value.changed && HasBytes(r.value.frameBytes)
      ensures sent.Some? ==> sent.value == ChangeMessage(r.value.description, r.value.frameBytes.value)
      ensures chat == if sent.Some? && old(chat).None? then Some(start.session) else old(chat)
      ensures queue != null ==>
        queue.items == old(queue.items) +
          if sent.Some? then CommentEvents(SendOrNone(ChangePrompt(r.value.description),
                                                       [DataPart(r.value.frameBytes.value, ImageMimeType)], [], [], outcome))
          else []
    {
      if !monitor.Capturing() {
        if chat.None? {
          return None, None;
        }
        var _ := monitor.StartCapture(restartOpens);
        if !monitor.Capturing() {
          return None, None;
        }
      }
      var result := monitor.ProcessFrameForChanges(s);
      r := Some(result);
      if !(result.changed && HasBytes(result.frameBytes)) {
        return r, None;
      }
      if chat.None? {
        var _ := StartChat(start);
      }
      var prompt := ChangePrompt(result.description);
      var reply;
      reply, sent := SendMessage(prompt, [DataPart(result.frameBytes.value, ImageMimeType)], [], [], start, outcome);
      if reply.Some? && reply.value != "" {
        Enqueue(queue, VideoChangeComment(reply.value));
      }
    }
  }
}
