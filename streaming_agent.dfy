/** `MultimodalAgent` of `streaming-test/app/agent.py`: a chat with the
    model, a camera watched for changes, and a spoken round trip. Replies
    are read with the SDK's `response.text` accessor, and every exception
    from the model reaches the caller. */
module StreamingAgent {
  import opened Wrappers
  import opened Text
  import opened GenAi
  import opened VideoUtils
  import opened Multimodal

  /** What `handle_voice_interaction` puts on the queue and plays, given
      what recording, transcription, the model and synthesis yield. It stops
      at the first step that fails, reporting that step. */
  function VoiceRun(io: VoiceIo): (t: VoiceTrace)
    ensures Status(AudioRecordingFailed) in t.events <==> !HasBytes(io.recording)
    ensures Status(TranscriptionFailed) in t.events <==> HasBytes(io.recording) && io.transcript.None?
    ensures Status(NoSpeechDetected) in t.events <==> HasBytes(io.recording) && io.transcript == Some("")
    ensures t.raised <==> Heard(io) && AccessorReply(io.reply).Failure?
    ensures Status(ModelDidNotRespond) in t.events <==> Heard(io) && AccessorReply(io.reply) == Success("")
    ensures Heard(io) <==> |t.events| > 0 && t.events[0] == Transcription(io.transcript.GetOr(""))
    ensures t.played.Some? <==>
      && Heard(io) && AccessorReply(io.reply).Success? && AccessorReply(io.reply).value != ""
      && HasBytes(io.synthesis)
    ensures t.played.Some? ==> t.played == io.synthesis
    ensures Heard(io) && AccessorReply(io.reply).Success? && AccessorReply(io.reply).value != "" ==>
      t.events == [Transcription(io.transcript.value), ModelResponseAudioText(AccessorReply(io.reply).value)]
    ensures t.raised ==> t.events == [Transcription(io.transcript.value)] && t.played.None?
    ensures 0 < |t.events| <= 2
    ensures forall i :: 0 <= i < |t.events| - 1 ==> !t.events[i].Status?
  {
    if !HasBytes(io.recording) then VoiceTrace([Status(AudioRecordingFailed)], None, false)
    else if io.transcript.None? then VoiceTrace([Status(TranscriptionFailed)], None, false)
    else if io.transcript.value == "" then VoiceTrace([Status(NoSpeechDetected)], None, false)
    else
      var heard := [Transcription(io.transcript.value)];
      var reply := AccessorReply(io.reply);
      if reply.Failure? then VoiceTrace(heard, None, true)
      else if reply.value == "" then VoiceTrace(heard + [Status(ModelDidNotRespond)], None, false)
      else
        var said := heard + [ModelResponseAudioText(reply.value)];
        if HasBytes(io.synthesis) then VoiceTrace(said, io.synthesis, false)
        else VoiceTrace(said, None, false)
  }

  /** The comment the video check puts on the queue: only a non-empty reply
      is reported. */
  function CommentEvents(reply: Result<string, SendError>): (events: seq<UiEvent>)
    ensures |events| <= 1
    ensures events != [] <==> reply.Success? && reply.value != ""
    ensures events != [] ==> events == [VideoChangeComment(reply.value)]
  {
    if reply.Success? && reply.value != "" then [VideoChangeComment(reply.value)] else []
  }

  class MultimodalAgent {
    const projectId: string
    const location: string
    const modelName: string
    const monitor: VideoMonitor
    var chat: Option<ChatSession>

    /** The state `__init__` leaves behind once its checks have passed. */
    constructor Init(projectId: string, location: string, modelName: string, monitor: VideoMonitor)
      ensures this.projectId == projectId && this.location == location && this.modelName == modelName
      ensures this.monitor == monitor && chat.None?
    {
      this.projectId := projectId;
      this.location := location;
      this.modelName := modelName;
      this.monitor := monitor;
      chat := None;
    }

    /** `MultimodalAgent(project_id, location, model_name, camera_index)`:
        the three settings are checked in order, then the SDK is initialised
        (`sdkReady` is whether `vertexai.init` and `GenerativeModel`
        succeed), then a monitor limited to one frame per second is made. */
    static method Create(projectId: string, location: string, modelName: string, cameraIndex: int, sdkReady: bool)
      returns (r: Result<MultimodalAgent, InitError>)
      ensures MissingSetting(projectId, location, modelName).Some? ==>
        r == Failure(ConfigError(MissingSetting(projectId, location, modelName).value))
      ensures MissingSetting(projectId, location, modelName).None? ==> (r.Success? <==> sdkReady)
      ensures r.Failure? && sdkReady ==> r.error.ConfigError?
      ensures r.Success? ==>
        && fresh(r.value) && fresh(r.value.monitor)
        && r.value.projectId == projectId && r.value.location == location && r.value.modelName == modelName
        && r.value.chat.None?
        && r.value.monitor.cameraIndex == cameraIndex && r.value.monitor.fpsLimit == 1.0
        && r.value.monitor.cap.None? && r.value.monitor.previousFrame.None?
    {
      var missing := MissingSetting(projectId, location, modelName);
      if missing.Some? {
        return Failure(ConfigError(missing.value));
      }
      if !sdkReady {
        return Failure(SdkError);
      }
      var monitor := new VideoMonitor.UnlessFalsy(cameraIndex, Some(1.0), StreamingTestVideoFps);
      var agent := new MultimodalAgent.Init(projectId, location, modelName, monitor);
      return Success(agent);
    }

    /** The effect of `if not self.chat: self.start_chat()`: a chat is
        started only when there is none, and only a start with no capture
        object tries to open the camera. */
    twostate predicate ChatEnsured(start: ChatStart)
      reads this, monitor
    {
      && chat == (if old(chat).Some? then old(chat) else Some(start.session))
      && (old(chat).Some? || old(monitor.cap).Some? ==>
            monitor.cap == old(monitor.cap) && monitor.previousFrame == old(monitor.previousFrame))
      && (old(chat).None? && old(monitor.cap).None? ==>
            if start.cameraOpens then monitor.cap == Some(Capture(true)) && monitor.previousFrame.None?
            else monitor.cap.None? && monitor.previousFrame == old(monitor.previousFrame))
    }

    /** `start_chat`: replaces the chat, and starts the capture when there is
        no capture object. */
    method StartChat(start: ChatStart) returns (session: ChatSession)
      modifies this`chat, monitor`cap, monitor`previousFrame
      ensures chat == Some(start.session) && session == start.session
      ensures old(monitor.cap).Some? ==>
        monitor.cap == old(monitor.cap) && monitor.previousFrame == old(monitor.previousFrame)
      ensures old(monitor.cap).None? ==>
        if start.cameraOpens then monitor.cap == Some(Capture(true)) && monitor.previousFrame.None?
        else monitor.cap.None? && monitor.previousFrame == old(monitor.previousFrame)
    {
      chat := Some(start.session);
      if monitor.cap.None? {
        var _ := monitor.StartCapture(start.cameraOpens);
      }
      return start.session;
    }

    /** `stop_chat`: stops the capture if there is a capture object, and
        always forgets the chat. */
    method StopChat()
      modifies this`chat, monitor`cap, monitor`previousFrame
      ensures chat.None? && monitor.cap.None?
      ensures old(monitor.cap).Some? ==> monitor.previousFrame.None?
      ensures old(monitor.cap).None? ==> monitor.previousFrame == old(monitor.previousFrame)
    {
      if monitor.cap.Some? {
        monitor.StopCapture();
      }
      chat := None;
    }

    /** `if not self.chat: self.start_chat()`, the lazy start every sending
        method begins with. */
    method EnsureChat(start: ChatStart)
      modifies this`chat, monitor`cap, monitor`previousFrame
      ensures ChatEnsured(start)
    {
      if chat.None? {
        var _ := StartChat(start);
      }
    }

    /** `send_text_message`: sends the text as it is and returns
        `response.text`; an exception is re-raised. */
    method SendTextMessage(text: string, start: ChatStart, outcome: ModelOutcome)
      returns (r: Result<string, SendError>)
      modifies this`chat, monitor`cap, monitor`previousFrame
      ensures ChatEnsured(start)
      ensures r == AccessorReply(outcome)
    {
      EnsureChat(start);
      if outcome.ModelError? {
        return Failure(ModelRaised);
      }
      if outcome.response.accessorText.None? {
        return Failure(ModelRaised);
      }
      return Success(outcome.response.accessorText.value);
    }

    /** `send_message`: the lazy start comes before the check for an empty
        call; the parts are assembled with `append` and `extend`. `sent` is
        what reaches `chat.send_message`. */
    method SendMessage(text: string, images: seq<Part>, audio: seq<Part>, video: seq<Part>,
                       start: ChatStart, outcome: ModelOutcome)
      returns (r: Result<string, SendError>, sent: Option<seq<Part>>)
      modifies this`chat, monitor`cap, monitor`previousFrame
      ensures ChatEnsured(start)
      ensures r == SendOutcome(text, images, audio, video, outcome)
      ensures sent.Some? <==> !NoContent(text, images, audio, video)
      ensures sent.Some? ==> sent.value == PromptParts(text, images, audio, video)
    {
      EnsureChat(start);
      if text == "" && images == [] && audio == [] && video == [] {
        return Failure(InvalidInput(NoInputProvided)), None;
      }
      var parts: seq<Part> := [];
      if text != "" {
        parts := parts + [TextPart(text)];
      }
      parts := parts + images;
      parts := parts + audio;
      parts := parts + video;
      sent := Some(parts);
      r := AccessorReply(outcome);
    }

    /** `handle_voice_interaction(event_queue=queue)`: record, transcribe,
        ask the model, then synthesise and play the reply, reporting each
        step on the queue. */
    method HandleVoiceInteraction(io: VoiceIo, start: ChatStart, queue: EventQueue?)
      returns (played: Option<Bytes>, raised: bool)
      modifies this`chat, monitor`cap, monitor`previousFrame, queue
      ensures ChatEnsured(start)
      ensures queue != null ==> queue.items == old(queue.items) + VoiceRun(io).events
      ensures played == VoiceRun(io).played && raised == VoiceRun(io).raised
    {
      EnsureChat(start);
      if !HasBytes(io.recording) {
        Enqueue(queue, Status(AudioRecordingFailed));
        return None, false;
      }
      if io.transcript.None? {
        Enqueue(queue, Status(TranscriptionFailed));
        return None, false;
      }
      var heard := io.transcript.value;
      if heard == "" {
        Enqueue(queue, Status(NoSpeechDetected));
        return None, false;
      }
      Enqueue(queue, Transcription(heard));
      var reply := SendTextMessage(heard, start, io.reply);
      if reply.Failure? {
        return None, true;
      }
      if reply.value == "" {
        Enqueue(queue, Status(ModelDidNotRespond));
        return None, false;
      }
      Enqueue(queue, ModelResponseAudioText(reply.value));
      if !HasBytes(io.synthesis) {
        return None, false;
      }
      return io.synthesis, false;
    }

    /** `check_for_video_changes_and_comment(event_queue=queue)`. Without an
        open capture it restarts the camera only while a chat is active
        (`restartOpens` is whether it opens), and gives up otherwise. A
        changed frame with bytes is sent to the model with the change prompt,
        and a non-empty reply is put on the queue. `r` is what
        `process_frame_for_changes` gave, when it was called. */
    method CheckForVideoChangesAndComment(queue: EventQueue?, restartOpens: bool, s: Sensor,
                                          start: ChatStart, outcome: ModelOutcome)
      returns (r: Option<ChangeResult>, sent: Option<seq<Part>>, raised: bool)
      modifies this`chat, monitor`cap, monitor`previousFrame, monitor`lastProcessedTime, queue
      ensures r.Some? <==> old(monitor.Capturing()) || (old(chat).Some? && restartOpens)
      ensures monitor.cap == if old(monitor.Capturing()) || old(chat).None? then old(monitor.cap)
                             else if restartOpens then Some(Capture(true)) else None
      ensures r.Some? ==> r.value == FrameOutcome(monitor.fpsLimit, old(monitor.lastProcessedTime), true, s)
      ensures monitor.lastProcessedTime ==
        if r.Some? then NextProcessedTime(monitor.fpsLimit, old(monitor.lastProcessedTime), s.now)
        else old(monitor.lastProcessedTime)
      ensures sent.Some? <==> r.Some? && r.value.changed && HasBytes(r.value.frameBytes)
      ensures sent.Some? ==> sent.value == ChangeMessage(r.value.description, r.value.frameBytes.value)
      ensures chat == if sent.Some? && old(chat).None? then Some(start.session) else old(chat)
      ensures raised <==> sent.Some? && AccessorReply(outcome).Failure?
      ensures queue != null ==>
        queue.items == old(queue.items) + if sent.Some? then CommentEvents(AccessorReply(outcome)) else []
    {
      if !monitor.Capturing() {
        if chat.None? {
          return None, None, false;
        }
        var _ := monitor.StartCapture(restartOpens);
        if !monitor.Capturing() {
          return None, None, false;
        }
      }
      var result := monitor.ProcessFrameForChanges(s);
      r := Some(result);
      if !(result.changed && HasBytes(result.frameBytes)) {
        return r, None, false;
      }
      if chat.None? {
        var _ := StartChat(start);
      }
      var prompt := ChangePrompt(result.description);
      var reply;
      reply, sent := SendMessage(prompt, [DataPart(result.frameBytes.value, ImageMimeType)], [], [], start, outcome);
      if reply.Failure? {
        return r, sent, true;
      }
      if reply.value != "" {
        Enqueue(queue, VideoChangeComment(reply.value));
      }
      raised := false;
    }
  }
}
