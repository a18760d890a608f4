/** The web server of `streaming-test2/app/main.py` and of its earlier copy
    `in_progress/streaming-test2/app/main.py`: the two global agent
    instances, their start-up and shut-down, and the decisions the HTTP
    endpoints make. Routing, static files and the streaming response
    machinery are not modelled; an endpoint's answer is an `HttpResponse`
    value. */
module Server {
  import opened Wrappers
  import opened Text
  import opened JsonLog
  import opened GenAi
  import opened CameraAgents
  import opened AudioAgents

  const AudioAgentUnavailable := "AudioAgent not available."
  const InvalidJson := "Invalid JSON."
  const InvalidLogType := "Invalid log type. Use 'camera' or 'audio'."
  const FailedToStart := "Failed to start session: "
  const AudioModelName := "gemini-2.0-flash-live-preview-04-09"

  /** An endpoint's answer: an `HTTPException`, a JSON body with its status,
      or an event stream of frames. */
  datatype HttpResponse =
    | HttpError(status: nat, detail: string)
    | JsonReply(status: nat, body: Json)
    | EventStream(frames: seq<SseMessage>)

  /** The body of a `POST /send/{user_id}`: not JSON at all, or a JSON object
      read as a client message. */
  datatype RequestBody = MalformedJson | MessageBody(msg: ClientMessage)

  /** `f"{log_type}_log.json"` */
  function LogFileName(logType: string): string {
    logType + "_log.json"
  }

  /** `get_log_content(log_type)`, given the two log files. */
  function LogContent(logType: string, camera: LogFile, audio: LogFile): (r: HttpResponse)
    ensures logType != "camera" && logType != "audio" <==> r == HttpError(404, InvalidLogType)
    ensures r.JsonReply? ==> r.status == 200
    ensures (logType == "camera" || logType == "audio") ==>
      var f := if logType == "camera" then camera else audio;
      && ((f.Missing? || f.EmptyFile?) ==> r == JsonReply(200, JArray([])))
      && (f.Corrupt? ==> r == JsonReply(200, JArray([JObject(map["error" := JString("Failed to parse " + LogFileName(logType))])])))
      && (f.Stored? ==> r == JsonReply(200, f.doc))
  {
    if logType != "camera" && logType != "audio" then HttpError(404, InvalidLogType)
    else
      var f := if logType == "camera" then camera else audio;
      match f
      case Missing => JsonReply(200, JArray([]))
      case EmptyFile => JsonReply(200, JArray([]))
      case Corrupt => JsonReply(200, JArray([JObject(map["error" := JString("Failed to parse " + LogFileName(logType))])]))
      case Stored(doc) => JsonReply(200, doc)
  }

  /** What an agent appends is what the log endpoint then shows: the
      entries before it, followed by the new entry. */
  lemma LogContentShowsAppendedEntry(logType: string, camera: LogFile, audio: LogFile, entry: Json)
    requires logType == "camera" || logType == "audio"
    ensures var f := if logType == "camera" then camera else audio;
      var f' := AppendEntry(f, entry);
      LogContent(logType, if logType == "camera" then f' else camera, if logType == "audio" then f' else audio)
        == JsonReply(200, JArray(ExistingEntries(f) + [entry]))
  {
  }

  /** The `{"status": ...}` body of `get_camera_agent_status`. */
  function StatusReply(present: bool, running: bool, cap: Option<VideoUtils.Capture>): (body: Json)
    ensures body.JObject? && "status" in body.fields
    ensures body.fields["status"] == JString("running") <==> present && running
    ensures body.fields["status"] != JString("running") ==> body.fields == map["status" := JString("stopped")]
    ensures present && running ==> "monitoring" in body.fields && body.fields["monitoring"] == JBool(cap.Some? && cap.value.isOpen)
  {
    if present && running then
      JObject(map["status" := JString("running"), "monitoring" := JBool(cap.Some? && cap.value.isOpen)])
    else JObject(map["status" := JString("stopped")])
  }

  /** How the send endpoint turns the agent's reply into an answer:
      `if response.get("error")` raises a 400 with the message, otherwise
      the reply is passed through. */
  function ReplyToHttp(reply: HandlerReply): (r: HttpResponse)
    ensures reply == Sent ==> r == JsonReply(200, JObject(map["status" := JString("sent")]))
    ensures reply.HandlerError? && reply.message != "" ==> r == HttpError(400, reply.message)
  {
    match reply
    case Sent => JsonReply(200, JObject(map["status" := JString("sent")]))
    case HandlerError(m) => if m != "" then HttpError(400, m) else JsonReply(200, JObject(map["error" := JString(m)]))
  }

  /** Every error the audio agent can report has a message, so the send
      endpoint answers 400 exactly when the agent refused the message, and
      with the agent's own words. */
  lemma AgentErrorsAreBadRequests(session: Option<Session>, msg: ClientMessage, decoded: Result<Bytes, string>)
    ensures var reply := DispatchMessage(session, msg, decoded).reply;
      && (ReplyToHttp(reply).HttpError? <==> reply.HandlerError?)
      && (reply.HandlerError? ==> ReplyToHttp(reply) == HttpError(400, reply.message))
  {
    var reply := DispatchMessage(session, msg, decoded).reply;
    if reply.HandlerError? {
      assert |reply.message| > 0;
    }
  }

  /** The module's globals: the log directory and the two agent instances.
      `variant` says which copy of the server, and so which copy of the
      camera agent, this is. */
  class App {
    const variant: Variant
    const files: LogDirectory
    var cameraAgent: Option<CameraAgent>
    var audioAgent: Option<AudioAgent>

    constructor(variant: Variant, files: LogDirectory)
      ensures this.variant == variant && this.files == files
      ensures cameraAgent.None? && audioAgent.None?
    {
      this.variant := variant;
      this.files := files;
      cameraAgent := None;
      audioAgent := None;
    }

    /** `startup_event` (`streaming-test2/app/main.py`). Missing
        configuration (`""`) leaves the globals as they are; otherwise each
        agent is built, the camera agent started, and a constructor that
        raises leaves its global `None`. `sdkReady` is whether Vertex AI
        initialises, `useVertexAi` is `GOOGLE_GENAI_USE_VERTEXAI`. */
    method StartupEvent(projectId: string, location: string, sdkReady: bool, useVertexAi: Option<string>)
      modifies this`cameraAgent, this`audioAgent, files
      ensures projectId == "" || location == "" ==>
        cameraAgent == old(cameraAgent) && audioAgent == old(audioAgent)
        && files.camera == old(files.camera) && files.audio == old(files.audio)
      ensures projectId != "" && location != "" ==> Started(sdkReady, useVertexAi)
    {
      if projectId == "" || location == "" {
        return;
      }
      StartAgents(projectId, location, sdkReady, useVertexAi);
    }

    /** The start-up half of `lifespan`
        (`in_progress/streaming-test2/app/main.py`): as `startup_event`, but
        missing configuration sets both globals to `None`. */
    method LifespanStartup(projectId: string, location: string, sdkReady: bool, useVertexAi: Option<string>)
      modifies this`cameraAgent, this`audioAgent, files
      ensures projectId == "" || location == "" ==>
        cameraAgent.None? && audioAgent.None?
        && files.camera == old(files.camera) && files.audio == old(files.audio)
      ensures projectId != "" && location != "" ==> Started(sdkReady, useVertexAi)
    {
      if projectId == "" || location == "" {
        cameraAgent := None;
        audioAgent := None;
        return;
      }
      StartAgents(projectId, location, sdkReady, useVertexAi);
    }

    /** The state after both agents were attempted with valid
        configuration: the camera agent exists (running, with its log
        reset) exactly when the SDK initialised, and the audio agent exactly
        when Vertex AI was asked for. */
    ghost predicate Started(sdkReady: bool, useVertexAi: Option<string>)
      reads this, files, if cameraAgent.Some? then {cameraAgent.value} else {}
      reads if audioAgent.Some? then {audioAgent.value} else {}
    {
      && (cameraAgent.Some? <==> sdkReady)
      && (cameraAgent.Some? ==> cameraAgent.value.running && cameraAgent.value.variant == variant
                                && cameraAgent.value.files == files)
      && (audioAgent.Some? <==> Lower(useVertexAi.GetOr("False")) == "true")
      && (audioAgent.Some? ==> audioAgent.value.files == files && audioAgent.value.sessions == map[]
                               && audioAgent.value.Valid())
      && files.camera == ListFile([])
      && (audioAgent.Some? ==> files.audio == ListFile([]))
    }

    method StartAgents(projectId: string, location: string, sdkReady: bool, useVertexAi: Option<string>)
      requires projectId != "" && location != ""
      modifies this`cameraAgent, this`audioAgent, files
      ensures Started(sdkReady, useVertexAi)
      ensures audioAgent.None? ==> files.audio == old(files.audio)
    {
      var camera := CameraAgent.Create(variant, projectId, location, DefaultModelName, 0, DefaultFpsLimit, files, sdkReady);
      if camera.Success? {
        camera.value.Start();
        cameraAgent := Some(camera.value);
      } else {
        cameraAgent := None;
      }
      var audio := AudioAgent.Create(projectId, location, AudioModelName, useVertexAi, files);
      if audio.Success? {
        audioAgent := Some(audio.value);
      } else {
        audioAgent := None;
      }
    }

    /** `shutdown_event` and the shut-down half of `lifespan`: stop the
        camera agent if there is one. */
    method Shutdown()
      modifies if cameraAgent.Some? then {cameraAgent.value} else {}
      ensures cameraAgent.Some? ==> !cameraAgent.value.running
      ensures cameraAgent.Some? && old(cameraAgent.value.running) ==> cameraAgent.value.thread.None?
    {
      if cameraAgent.Some? {
        cameraAgent.value.Stop();
      }
    }

    /** `GET /events/{user_id}?is_audio=...`: 503 without an audio agent;
        otherwise a session is started (`is_audio` is on exactly for the
        value `"true"`), its events are relayed to the end of the stream,
        and the session is stopped whatever happens. `created` and
        `startError` describe the outcome of starting the session. */
    method AudioSseEndpoint(userId: string, isAudioParam: string, created: bool, startError: string, events: seq<Timed>)
      returns (r: HttpResponse)
      requires audioAgent.Some? ==> audioAgent.value.Valid() && audioAgent.value.files == files
      modifies if audioAgent.Some? then {audioAgent.value} else {}, files`audio
      ensures audioAgent.None? ==> r == HttpError(503, AudioAgentUnavailable) && files.audio == old(files.audio)
      ensures audioAgent.Some? ==> audioAgent.value.Valid() && userId !in audioAgent.value.sessions
      ensures audioAgent.Some? && !created ==> r == HttpError(500, FailedToStart + startError) && files.audio == old(files.audio)
      ensures audioAgent.Some? && created ==>
        r == EventStream(Relay(isAudioParam == "true", events).frames)
        && files.audio == AppendAll(old(files.audio), Relay(isAudioParam == "true", events).logged)
        && |audioAgent.value.queueCalls| > 0
        && audioAgent.value.queueCalls[|audioAgent.value.queueCalls| - 1] == Close(old(audioAgent.value.nextQueue))
    {
      if audioAgent.None? {
        return HttpError(503, AudioAgentUnavailable);
      }
      var agent := audioAgent.value;
      var ok := agent.StartAdkSession(userId, isAudioParam == "true", created);
      if !ok {
        return HttpError(500, FailedToStart + startError);
      }
      var frames := agent.AgentToClientSseHandler(userId, events);
      agent.StopAdkSession(userId);
      return EventStream(frames);
    }

    /** `POST /send/{user_id}`: 503 without an audio agent, 400 for a body
        that is not JSON, then the agent's reply mapped by `ReplyToHttp`. */
    method SendMessageEndpoint(userId: string, body: RequestBody, decoded: Result<Bytes, string>, timestamp: string)
      returns (r: HttpResponse)
      requires audioAgent.Some? ==> audioAgent.value.files == files
      modifies if audioAgent.Some? then {audioAgent.value} else {}, files`audio
      ensures audioAgent.None? ==> r == HttpError(503, AudioAgentUnavailable) && files.audio == old(files.audio)
      ensures audioAgent.Some? && body.MalformedJson? ==> r == HttpError(400, InvalidJson) && files.audio == old(files.audio)
      ensures audioAgent.Some? && body.MessageBody? ==>
        var a := audioAgent.value;
        var d := DispatchMessage(if userId in a.sessions then Some(a.sessions[userId]) else None, body.msg, decoded);
        && r == ReplyToHttp(d.reply)
        && a.queueCalls == old(a.queueCalls) + (if d.call.Some? then [d.call.value] else [])
        && files.audio == (if d.userText.Some? then AppendEntry(old(files.audio), TranscriptEntry(timestamp, "user", d.userText.value))
                           else old(files.audio))
      ensures audioAgent.Some? && body.MalformedJson? ==> audioAgent.value.queueCalls == old(audioAgent.value.queueCalls)
      ensures audioAgent.Some? ==> audioAgent.value.sessions == old(audioAgent.value.sessions)
    {
      if audioAgent.None? {
        return HttpError(503, AudioAgentUnavailable);
      }
      if body.MalformedJson? {
        return HttpError(400, InvalidJson);
      }
      var reply := audioAgent.value.ClientToAgentHandler(userId, body.msg, decoded, timestamp);
      return ReplyToHttp(reply);
    }

    /** `GET /logs/{log_type}` */
    function GetLogContent(logType: string): HttpResponse
      reads this, files
    {
      LogContent(logType, files.camera, files.audio)
    }

    /** `GET /agent/camera/status` */
    function CameraAgentStatus(): Json
      reads this, if cameraAgent.Some? then {cameraAgent.value, cameraAgent.value.monitor} else {}
    {
      if cameraAgent.Some? then StatusReply(true, cameraAgent.value.running, cameraAgent.value.monitor.cap)
      else StatusReply(false, false, None)
    }
  }
}
