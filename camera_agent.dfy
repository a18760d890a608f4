/** `CameraAgent` from `streaming-test2/app/camera_agent.py` and its earlier
    copy in `in_progress/streaming-test2/app/camera_agent.py`. The two share
    one class here; `variant` selects the policy where they differ: only the
    later copy saves the latest frame for the UI, logs a note for a blank
    model comment, and records how long the model took. The background
    thread is not modelled: `MonitorLoop` is the body that thread runs, and
    its `ticks` are what the camera, clock and model supply to each pass. */
module CameraAgents {
  import opened Wrappers
  import opened Text
  import opened JsonLog
  import opened GenAi
  import opened VideoUtils

  /** `Released` is `streaming-test2/app/camera_agent.py`, `Draft` is
      `in_progress/streaming-test2/app/camera_agent.py`. */
  datatype Variant = Released | Draft

  const ProjectIdRequired := "CAMERA_AGENT: Google Cloud Project ID is required for CameraAgent."
  const LocationRequired := "CAMERA_AGENT: Google Cloud Location is required for CameraAgent."
  const DefaultModelName := "gemini-2.0-flash"
  const DefaultFpsLimit: real := 1.0
  const VideoChangeType := "video_change"
  const ImageMimeType := "image/jpeg"
  /** What the later copy logs when the model's comment is blank. */
  const NoCommentNote := "LLM provided no comment or an empty comment."

  const PromptOpening :=
    "You are an AI assistant observing a live video feed from a security camera. "
    + "A computer vision algorithm has detected a significant visual change in the scene. "
    + "The algorithm's initial description of this change is: '"
  const PromptClosing :=
    "'. "
    + "Please analyze the provided image carefully and give a concise, human-readable description "
    + "of what you observe in the image that is relevant to this detected change. "
    + "Focus on new objects, significant movements, changes in object states, or anything unusual. "
    + "Avoid generic statements like 'I see an image.' Be specific."

  /** The text sent with the changed frame: fixed instructions around the
      computer-vision description, quoted. */
  function CameraPrompt(description: string): (p: string)
    ensures StartsWith(p, PromptOpening)
    ensures OccursAt(p, description, |PromptOpening|)
    ensures |p| == |PromptOpening| + |description| + |PromptClosing|
  {
    var p := PromptOpening + description + PromptClosing;
    assert p[..|PromptOpening|] == PromptOpening;
    assert p[|PromptOpening|..|PromptOpening| + |description|] == description;
    p
  }

  /** The description can be read back from the prompt: distinct changes
      give distinct prompts. */
  lemma CameraPromptInjective(a: string, b: string)
    requires CameraPrompt(a) == CameraPrompt(b)
    ensures a == b
  {
    var p := CameraPrompt(a);
    assert a == p[|PromptOpening|..|PromptOpening| + |a|];
    assert b == p[|PromptOpening|..|PromptOpening| + |b|];
  }

  /** The keys of a `_log_change` entry. */
  function ChangeEntryKeys(variant: Variant): set<string> {
    {"timestamp", "type", "description_by_cv", "comment_by_llm"}
    + (if variant == Released then {"llm_processing_time_ms"} else {})
  }

  /** The entry `_log_change` appends. Rounding to two decimals is not
      modelled. */
  function ChangeEntry(variant: Variant, timestamp: string, description: string, comment: string, elapsedMs: real): (e: Json)
    ensures e.JObject? && e.fields.Keys == ChangeEntryKeys(variant)
    ensures e.fields["type"] == JString(VideoChangeType)
    ensures e.fields["comment_by_llm"] == JString(comment)
  {
    var base := map["timestamp" := JString(timestamp), "type" := JString(VideoChangeType),
                     "description_by_cv" := JString(description), "comment_by_llm" := JString(comment)];
    JObject(if variant == Released then base["llm_processing_time_ms" := JNumber(elapsedMs)] else base)
  }

  /** A camera log entry as the monitor loop writes them: a `video_change`
      object whose model comment is not blank. */
  predicate IsChangeEntry(e: Json) {
    && e.JObject? && "type" in e.fields && "comment_by_llm" in e.fields
    && e.fields["type"] == JString(VideoChangeType)
    && e.fields["comment_by_llm"].JString?
    && !IsBlank(e.fields["comment_by_llm"].s)
  }

  /** What one pass of the monitor loop is given: the camera and clock for
      `process_frame_for_changes`, the outcome of `model.start_chat` (if it is
      needed), the outcome of `chat.send_message`, the timestamp of the log
      entry and the measured model time. */
  datatype Tick = Tick(sensor: Sensor, chatStart: Option<ChatSession>, reply: ModelOutcome,
                       timestamp: string, elapsedMs: real)

  /** The model is consulted only for a change that came with an image. */
  predicate Consults(r: ChangeResult) {
    r.changed && HasBytes(r.frameBytes)
  }

  /** A prompt is sent when the model is consulted and a chat exists or can
      be started. */
  predicate Sends(r: ChangeResult, chat: Option<ChatSession>, chatStart: Option<ChatSession>) {
    Consults(r) && (chat.Some? || chatStart.Some?)
  }

  /** The comment `_log_change` is called with after a reply: the model's
      text when it is not blank; otherwise the note (later copy) or nothing
      (earlier copy). */
  function CommentToLog(variant: Variant, reply: Response): (c: Option<string>)
    ensures c.Some? ==> !IsBlank(c.value)
    ensures c.None? <==> variant == Draft && IsBlank(FirstPartText(reply))
    ensures !IsBlank(FirstPartText(reply)) ==> c == Some(FirstPartText(reply))
  {
    var comment := FirstPartText(reply);
    StripEmptyIffBlank(comment);
    if Strip(comment) != "" then Some(comment)
    else if variant == Released then
      assert NoCommentNote[0] == 'L';
      Some(NoCommentNote)
    else
      assert variant == Draft && IsBlank(comment);
      None
  }

  /** The chat session after one pass. */
  function ChatAfter(chat: Option<ChatSession>, r: ChangeResult, t: Tick): Option<ChatSession> {
    if !Consults(r) then chat
    else if chat.None? && t.chatStart.None? then None
    else if t.reply.ModelError? then None
    else if chat.Some? then chat
    else t.chatStart
  }

  /** The camera log after one pass. */
  function CameraLogAfter(variant: Variant, log: LogFile, chat: Option<ChatSession>, r: ChangeResult, t: Tick): LogFile {
    if Sends(r, chat, t.chatStart) && t.reply.Replied? && CommentToLog(variant, t.reply.response).Some? then
      AppendEntry(log, ChangeEntry(variant, t.timestamp, r.description, CommentToLog(variant, t.reply.response).value, t.elapsedMs))
    else log
  }

  /** `latest_camera_image.jpg` after one pass. */
  function LatestImageAfter(variant: Variant, image: Option<Bytes>, r: ChangeResult): Option<Bytes> {
    if variant == Released && HasBytes(r.frameBytes) then r.frameBytes else image
  }

  /** One pass appends at most one entry, and what it appends is a change
      entry with a non-blank comment. */
  lemma PassAppendsOneChangeEntry(variant: Variant, log: LogFile, chat: Option<ChatSession>, r: ChangeResult, t: Tick)
    ensures var log' := CameraLogAfter(variant, log, chat, r, t);
      log' == log || exists e :: IsChangeEntry(e) && log' == AppendEntry(log, e)
  {
    var log' := CameraLogAfter(variant, log, chat, r, t);
    if log' != log {
      var c := CommentToLog(variant, t.reply.response).value;
      var e := ChangeEntry(variant, t.timestamp, r.description, c, t.elapsedMs);
      assert IsChangeEntry(e);
    }
  }

  /** When a reply arrives, the later copy always logs; the earlier copy
      logs exactly when the comment is not blank. Without a reply nothing
      is logged. */
  lemma PassLogsIffReplied(variant: Variant, log: LogFile, chat: Option<ChatSession>, r: ChangeResult, t: Tick)
    ensures CameraLogAfter(variant, log, chat, r, t) != log
            <==> Sends(r, chat, t.chatStart) && t.reply.Replied?
                 && (variant == Released || !IsBlank(FirstPartText(t.reply.response)))
  {
    if Sends(r, chat, t.chatStart) && t.reply.Replied? && CommentToLog(variant, t.reply.response).Some? {
      var e := ChangeEntry(variant, t.timestamp, r.description, CommentToLog(variant, t.reply.response).value, t.elapsedMs);
      AppendEntryChanges(log, e);
    }
  }

  lemma AppendEntryChanges(f: LogFile, e: Json)
    ensures AppendEntry(f, e) != f
  {
    if f.Stored? && f.doc.JArray? {
      assert |AppendEntry(f, e).doc.items| == |f.doc.items| + 1;
    }
  }

  /** The chat session is started only on demand, kept while the model
      answers and dropped after a model error; a live session is never
      swapped for another. */
  lemma ChatLifecycle(chat: Option<ChatSession>, r: ChangeResult, t: Tick)
    ensures !Consults(r) ==> ChatAfter(chat, r, t) == chat
    ensures Consults(r) && t.reply.ModelError? ==> ChatAfter(chat, r, t).None?
    ensures chat.Some? ==> ChatAfter(chat, r, t) in {chat, None}
    ensures Consults(r) && chat.None? && t.chatStart.None? ==> ChatAfter(chat, r, t).None?
    ensures ChatAfter(chat, r, t).Some? <==> (chat.Some? || (Consults(r) && t.chatStart.Some?))
                                             && !(Consults(r) && t.reply.ModelError?)
  {
  }

  /** `f1` is `f0` after at most `n` appends of change entries. */
  ghost predicate ChangeLogGrownBy(f0: LogFile, f1: LogFile, n: nat) {
    && GrownBy(f0, f1, n)
    && (f1 != f0 ==> forall k | |ExistingEntries(f0)| <= k < |f1.doc.items| :: IsChangeEntry(f1.doc.items[k]))
  }

  lemma ChangeLogGrownByStep(f0: LogFile, f1: LogFile, n: nat, f2: LogFile)
    requires ChangeLogGrownBy(f0, f1, n)
    requires f2 == f1 || exists e :: IsChangeEntry(e) && f2 == AppendEntry(f1, e)
    ensures ChangeLogGrownBy(f0, f2, n + 1)
  {
    if f2 == f1 {
      assert GrownBy(f0, f1, n + 1);
    } else {
      var e :| IsChangeEntry(e) && f2 == AppendEntry(f1, e);
      ChangeLogGrownByAppend(f0, f1, n, e);
    }
  }

  /** The appending half of `ChangeLogGrownByStep`. */
  lemma ChangeLogGrownByAppend(f0: LogFile, f1: LogFile, n: nat, e: Json)
    requires ChangeLogGrownBy(f0, f1, n) && IsChangeEntry(e)
    ensures ChangeLogGrownBy(f0, AppendEntry(f1, e), n + 1)
  {
    GrownByAppend(f0, f1, n, e);
    var base := ExistingEntries(f0);
    var before := ExistingEntries(f1);
    var items := AppendEntry(f1, e).doc.items;
    assert items == before + [e];
    forall k | |base| <= k < |items|
      ensures IsChangeEntry(items[k])
    {
      if k < |before| {
        assert f1 != f0 && before == f1.doc.items;
        assert items[k] == f1.doc.items[k];
      }
    }
  }



  class CameraAgent {
    const variant: Variant
    const projectId: string
    const location: string
    const modelName: string
    const monitor: VideoMonitor
    /** The `logs/` directory; this agent writes `camera_log.json`. */
    const files: LogDirectory
    var chat: Option<ChatSession>
    var running: bool
    /** The background thread, by the number it was started as. */
    var thread: Option<nat>
    var threadsStarted: nat
    /** What this agent last wrote to `static/latest_camera_image.jpg`. */
    var latestImage: Option<Bytes>

    /** The state `__init__` leaves behind once it has succeeded. */
    constructor Init(variant: Variant, projectId: string, location: string, modelName: string,
                     monitor: VideoMonitor, files: LogDirectory)
      ensures this.variant == variant && this.projectId == projectId && this.location == location
      ensures this.modelName == modelName && this.monitor == monitor && this.files == files
      ensures chat.None? && !running && thread.None? && threadsStarted == 0 && latestImage.None?
    {
      this.variant := variant;
      this.projectId := projectId;
      this.location := location;
      this.modelName := modelName;
      this.monitor := monitor;
      this.files := files;
      chat := None;
      running := false;
      thread := None;
      threadsStarted := 0;
      latestImage := None;
    }

    /** `CameraAgent(project_id, location, model_name, camera_index, fps_limit)`:
        the configuration is checked first, then the camera log is reset to
        `[]`, then the SDK is initialised (`sdkReady` is whether
        `vertexai.init` and `GenerativeModel` succeed). */
    static method Create(variant: Variant, projectId: string, location: string, modelName: string,
                         cameraIndex: int, fpsLimit: real, files: LogDirectory, sdkReady: bool)
      returns (r: Result<CameraAgent, InitError>)
      modifies files`camera
      ensures projectId == "" ==> r == Failure(ConfigError(ProjectIdRequired)) && files.camera == old(files.camera)
      ensures projectId != "" && location == "" ==> r == Failure(ConfigError(LocationRequired)) && files.camera == old(files.camera)
      ensures projectId != "" && location != "" ==> files.camera == ListFile([]) && (r.Success? <==> sdkReady)
      ensures r.Failure? && sdkReady ==> r.error.ConfigError?
      ensures r.Success? ==>
        && fresh(r.value) && fresh(r.value.monitor)
        && r.value.variant == variant && r.value.files == files && r.value.modelName == modelName
        && r.value.chat.None? && !r.value.running && r.value.thread.None?
        && r.value.monitor.cameraIndex == cameraIndex && r.value.monitor.fpsLimit == fpsLimit
        && r.value.monitor.cap.None?
    {
      if projectId == "" {
        return Failure(ConfigError(ProjectIdRequired));
      }
      if location == "" {
        return Failure(ConfigError(LocationRequired));
      }
      files.camera := ListFile([]);
      if !sdkReady {
        return Failure(SdkError);
      }
      var monitor := new VideoMonitor.UnlessNone(cameraIndex, Some(fpsLimit), FallbackVideoFps);
      var agent := new CameraAgent.Init(variant, projectId, location, modelName, monitor, files);
      return Success(agent);
    }

    /** `start`: launches the monitor thread unless one is running. */
    method Start()
      modifies this`running, this`thread, this`threadsStarted
      ensures running
      ensures old(running) ==> thread == old(thread) && threadsStarted == old(threadsStarted)
      ensures !old(running) ==> thread == Some(old(threadsStarted)) && threadsStarted == old(threadsStarted) + 1
    {
      if !running {
        running := true;
        thread := Some(threadsStarted);
        threadsStarted := threadsStarted + 1;
      }
    }

    /** `stop`: signals the thread and forgets it, if running. Waiting for
        the thread is not modelled. */
    method Stop()
      modifies this`running, this`thread
      ensures !running
      ensures old(running) ==> thread.None?
      ensures !old(running) ==> thread == old(thread)
    {
      if running {
        running := false;
        thread := None;
      }
    }

    /** `_start_chat_session`; `started` is what `model.start_chat` yields
        (`None` when it raises). */
    method StartChatSession(started: Option<ChatSession>) returns (ok: bool)
      modifies this`chat
      ensures old(chat).Some? ==> ok && chat == old(chat)
      ensures old(chat).None? ==> chat == started && (ok <==> started.Some?)
    {
      if chat.None? {
        chat := started;
        if started.None? {
          return false;
        }
      }
      return true;
    }

    /** `_log_change`: read the log (anything but a list counts as `[]`),
        append one entry, write it back. */
    method LogChange(description: string, comment: string, timestamp: string, elapsedMs: real)
      modifies files`camera
      ensures files.camera == AppendEntry(old(files.camera), ChangeEntry(variant, timestamp, description, comment, elapsedMs))
    {
      var current := ExistingEntries(files.camera);
      current := current + [ChangeEntry(variant, timestamp, description, comment, elapsedMs)];
      files.camera := ListFile(current);
    }

    /** One pass of `_monitor_loop`'s `while self.running` body. Returns what
        `process_frame_for_changes` gave and the message sent to the model,
        if any. */
    method MonitorPass(t: Tick) returns (r: ChangeResult, sent: Option<seq<Part>>)
      modifies monitor`lastProcessedTime, this`chat, this`latestImage, files`camera
      ensures r == FrameOutcome(monitor.fpsLimit, old(monitor.lastProcessedTime), monitor.Capturing(), t.sensor)
      ensures monitor.lastProcessedTime == NextProcessedTime(monitor.fpsLimit, old(monitor.lastProcessedTime), t.sensor.now)
      ensures latestImage == LatestImageAfter(variant, old(latestImage), r)
      ensures chat == ChatAfter(old(chat), r, t)
      ensures files.camera == CameraLogAfter(variant, old(files.camera), old(chat), r, t)
      ensures sent.Some? <==> Sends(r, old(chat), t.chatStart)
      ensures sent.Some? ==> sent.value == [TextPart(CameraPrompt(r.description)), DataPart(r.frameBytes.value, ImageMimeType)]
    {
      r := monitor.ProcessFrameForChanges(t.sensor);
      if variant == Released && r.frameBytes.Some? && |r.frameBytes.value| > 0 {
        latestImage := r.frameBytes;
      }
      sent := None;
      if r.changed && r.frameBytes.Some? && |r.frameBytes.value| > 0 {
        sent := ConsultModel(r, t);
      }
    }

    /** The `if changed and frame_bytes` branch of a pass: start a chat if
        there is none (skipping the event when that fails), send the prompt
        and the frame, then log the comment or drop the chat on an error. */
    method ConsultModel(r: ChangeResult, t: Tick) returns (sent: Option<seq<Part>>)
      requires Consults(r)
      modifies this`chat, files`camera
      ensures chat == ChatAfter(old(chat), r, t)
      ensures files.camera == CameraLogAfter(variant, old(files.camera), old(chat), r, t)
      ensures sent.Some? <==> Sends(r, old(chat), t.chatStart)
      ensures sent.Some? ==> sent.value == [TextPart(CameraPrompt(r.description)), DataPart(r.frameBytes.value, ImageMimeType)]
    {
      sent := None;
      if chat.None? {
        var ok := StartChatSession(t.chatStart);
        if !ok {
          assert !Sends(r, old(chat), t.chatStart);
          return;
        }
      }
      assert Sends(r, old(chat), t.chatStart);
      sent := Some([TextPart(CameraPrompt(r.description)), DataPart(r.frameBytes.value, ImageMimeType)]);
      match t.reply
      case ModelError =>
        chat := None;
      case Replied(response) =>
        assert chat == ChatAfter(old(chat), r, t);
        var comment := CommentToLog(variant, response);
        if comment.Some? {
          LogChange(r.description, comment.value, t.timestamp, t.elapsedMs);
        }
    }

    /** `_monitor_loop`: open the camera (`opens`), run passes while
        `running` holds, then release the camera. `ticks` are the passes
        that happen before another thread's `stop` clears `running`; that
        `stop` is what ends the loop, so the flag is clear afterwards. The
        method returns how many passes took place. */
    method MonitorLoop(opens: bool, ticks: seq<Tick>) returns (passes: nat)
      modifies this`running, this`chat, this`latestImage, files`camera
      modifies monitor`cap, monitor`previousFrame, monitor`lastProcessedTime
      ensures !opens ==> !running && passes == 0 && files.camera == old(files.camera) && chat == old(chat)
      ensures !opens ==> monitor.cap.None?
      ensures !running
      ensures opens ==> passes == (if old(running) then |ticks| else 0)
      ensures opens ==> monitor.cap.None? && monitor.previousFrame.None?
      ensures ChangeLogGrownBy(old(files.camera), files.camera, passes)
    {
      var ok := monitor.StartCapture(opens);
      if !ok {
        running := false;
        return 0;
      }
      passes := 0;
      while running && passes < |ticks|
        invariant passes <= |ticks|
        invariant running == old(running)
        invariant !old(running) ==> passes == 0
        invariant ChangeLogGrownBy(old(files.camera), files.camera, passes)
        invariant monitor.cap.Some?
      {
        ghost var before, chatBefore := files.camera, chat;
        var r, sent := MonitorPass(ticks[passes]);
        PassAppendsOneChangeEntry(variant, before, chatBefore, r, ticks[passes]);
        ChangeLogGrownByStep(old(files.camera), before, passes, files.camera);
        passes := passes + 1;
      }
      // the `stop` of another thread that ends the run
      running := false;
      if monitor.cap.Some? {
        monitor.StopCapture();
      }
    }
  }
}
