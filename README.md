# Camera and voice agents around Vertex AI, modelled in Dafny

The repository wires a camera and a microphone to Google's generative
models. A `VideoMonitor` watches the camera and decides, frame by frame and
at a limited rate, whether the scene changed. A `CameraAgent` runs that
monitor in a background loop. When the scene changes it asks the model to
comment on the frame and appends the comment to `logs/camera_log.json`. An
`AudioAgent` keeps one live ADK session per user. It relays the user's text
and audio to the session and streams the session's replies back as
server-sent events. It logs both sides of the conversation to
`logs/audio_log.json` and primes each new session with the latest camera
comments. A FastAPI server (two copies of `main.py`) creates these agents at
start-up and exposes them over HTTP. Three copies of an older
`MultimodalAgent` assemble text, image, audio and video parts into one model
request. They also run a spoken round trip (record, transcribe, ask, speak)
and comment on video changes through an event queue.

The model replaces everything outside the repository's own logic by
inputs:

- a camera read, the contour areas OpenCV finds and the JPEG encoding;
- the clock;
- what the model or the ADK session answers, and whether the SDK
  initialises;
- what recording, transcription and speech synthesis yield;
- what a reader finds in a log file.

The repository's own logic is then stated and proved:

- the frame-rate limiter and the change decision;
- the camera agent's lifecycle and its per-frame policy;
- the read-append-rewrite of the log files;
- the per-user session table, message dispatch and the event relay with its
  turn accumulator;
- the camera-context refresh;
- the endpoint decisions;
- the multimodal prompt assembly and the early-exit voice pipeline.

Files and modules, one module per source file or shared concern:

| file | module | models |
|---|---|---|
| `wrappers.dfy` | `Wrappers` | `Option` and `Result` |
| `text.dfy` | `Text` | `str.strip`, `startswith`, `in`, `" ".join`, `lower` |
| `json_log.dfy` | `JsonLog` | the JSON log files and their append discipline |
| `genai.dfy` | `GenAi` | the SDK objects the agents touch, and the prompt assembly |
| `video_utils.dfy` | `VideoUtils` | `VideoMonitor` of both `video_utils.py` copies |
| `camera_agent.dfy` | `CameraAgents` | `CameraAgent` of both `camera_agent.py` copies |
| `audio_agent.dfy` | `AudioAgents` | `AudioAgent` of `streaming-test2/app/audio_agent.py` |
| `event_stream.dfy` | `EventStream` | the `data: ...` framing of the SSE handler |
| `server.dfy` | `Server` | both `main.py` copies |
| `multimodal.dfy` | `Multimodal` | what the three `MultimodalAgent` copies share |
| `basic_agent.dfy` | `BasicAgent` | `app/agent.py` |
| `streaming_agent.dfy` | `StreamingAgent` | `streaming-test/app/agent.py` |
| `streaming_agent_draft.dfy` | `StreamingAgentDraft` | `in_progress/streaming-test/app/agent.py` |

Where two copies of a file differ, the model keeps both behaviours.

- `VideoMonitor` has one constructor per fps default:
  - `UnlessNone` for `fps_limit is not None`;
  - `UnlessFalsy` for the truthiness test.
- `CameraAgent` has a `variant`:
  - `Released` is `streaming-test2/app/camera_agent.py`;
  - `Draft` is `in_progress/streaming-test2/app/camera_agent.py`.
- `Server.App` has the same `variant`. `StartupEvent` and `LifespanStartup`
  are the two start-up styles.

Modelling choices:

- Objects the source updates in place are classes. Their methods carry
  `modifies` clauses.
- The source's loops are loops:
  - the contour scan;
  - the camera-log scan of the context refresh;
  - the event relay;
  - the monitor loop.
- Pure decisions are functions. Lemmas relate them to independent
  descriptions.
- Exceptions are `Result` or `Option` values, or a `raised` flag.
- Python truthiness is written out. Bytes count only when present and
  non-empty; `0` and `""` are falsy.

Some behaviours of the code are easy to miss when reading it:

- In the `in_progress/streaming-test` `MultimodalAgent`, the voice pipeline
  checks the reply for `None`. `send_text_message` never returns `None`, so
  "Model did not respond." is never reported
  (`StreamingAgentDraft.VoiceRun`).
- The video check of that copy passes on only a non-empty reply. A comment
  beside the check says otherwise; the model follows the code.

## Model

| member | source | states |
|---|---|---|
| `Text.StripStart` | streaming-test2/app/audio_agent.py:95 | the result is a suffix of the input, starts with a non-space, and only whitespace was removed |
| `Text.StripEnd` | streaming-test2/app/audio_agent.py:95 | the result is a prefix of the input, ends with a non-space, and only whitespace was removed |
| `Text.Strip` | streaming-test2/app/audio_agent.py:95 | the result has no leading or trailing whitespace, sits in the input right after its leading whitespace, and every input character outside it is whitespace |
| `Text.StripEmptyIffBlank` | streaming-test2/app/audio_agent.py:95-96 | `s.strip()` is empty exactly when `s` is whitespace only |
| `Text.ContainsInLeft` | streaming-test2/app/audio_agent.py:147 | a substring of a string is a substring of any extension of it, so a marker in the turn so far stays in the turn |
| `Text.JoinSpaceStripped` | streaming-test2/app/audio_agent.py:99 | joining non-empty stripped comments gives a non-empty stripped string that starts with the first comment and ends with the last |
| `Text.JoinSpaceContains` | streaming-test2/app/audio_agent.py:99 | every joined comment occurs in the joined string |
| `Text.Lower` | streaming-test2/app/audio_agent.py:32 | same length; every ASCII capital is lowered and every other character kept |
| `JsonLog.ExistingEntries` | streaming-test2/app/audio_agent.py:63-69 | the entries a read keeps are either exactly the stored list or none |
| `JsonLog.AppendEntry` | streaming-test2/app/audio_agent.py:62-72 | the rewritten file is a list whose last item is the new entry and whose other items are the entries kept by the read |
| `JsonLog.AppendToListKeepsEntries` | streaming-test2/app/audio_agent.py:70-72 | appending to a stored list extends it by exactly the entry |
| `JsonLog.AppendToUnreadableStartsFresh` | streaming-test2/app/audio_agent.py:64-69 | a missing, empty, corrupt or non-list file is replaced by a one-entry list |
| `JsonLog.AppendAllIsConcatenation` | streaming-test2/app/audio_agent.py:59-74 | a run of appends leaves the kept entries followed by all new entries in order |
| `JsonLog.AppendAllSnoc` | streaming-test2/app/audio_agent.py:59-74 | appending one more entry after a run equals the run extended by that entry |
| `JsonLog.GrownByStep` | streaming-test2/app/camera_agent.py:95-121 | after `n` appends the file is unchanged or a list that extends the original list by 1 to `n` entries, and one more append or none keeps this for `n + 1` |
| `JsonLog.GrownByAppend` | streaming-test2/app/camera_agent.py:113-115 | one append keeps the original list as a prefix and adds exactly one entry to the growth |
| `JsonLog.LogDirectory.constructor` | streaming-test2/app/audio_agent.py:43-44 | the directory holds the given camera and audio log files |
| `GenAi.FirstPartText` | in_progress/streaming-test/app/agent.py:199-201 | a non-empty result is the text of the first part of the first candidate; when that part has text, the result is exactly that text |
| `GenAi.PromptPartsOrder` | app/agent.py:63-74 | the prompt is the text part (when there is text), then the images, the audio and the video, and nothing else |
| `GenAi.PromptEmptyIffNoContent` | app/agent.py:60-74 | the prompt is empty exactly when all four inputs are empty |
| `VideoUtils.FpsDefaultsDifferOnZero` | streaming-test2/app/video_utils.py:40 | the two fps defaults disagree exactly on an explicit `0` (with a non-zero `VIDEO_FPS`); the streaming-test2 copy keeps the `0` and then never rate-limits |
| `VideoUtils.AnyAreaAboveIff` | streaming-test2/app/video_utils.py:167-177 | the contour scan finds a large area exactly when some area is strictly above the minimum |
| `VideoUtils.Detection` | streaming-test2/app/video_utils.py:120-193 | changed iff a frame exists and some area is strictly above the minimum; bytes only when changed, and the encoding's result then; the exact descriptions otherwise |
| `VideoUtils.FrameOutcome` | streaming-test2/app/video_utils.py:196-225 | a rate-limited call is skipped; otherwise a missing frame fails and a frame is judged by the detection; bytes imply changed; changed iff not limited, read and a large area |
| `VideoUtils.ProcessedTimesSpaced` | streaming-test2/app/video_utils.py:211-218 | with a positive limit, examined frames are at least `1/fps_limit` seconds apart and are among the calls |
| `VideoUtils.NoLimitProcessesAll` | streaming-test2/app/video_utils.py:211-216 | with `fps_limit == 0` every call is examined |
| `VideoUtils.VideoMonitor.UnlessNone` | streaming-test2/app/video_utils.py:40 | fps falls back to `VIDEO_FPS` only for `None`; no capture, no previous frame, last time 0 |
| `VideoUtils.VideoMonitor.UnlessFalsy` | streaming-test/app/video_utils.py:16-20 | fps falls back to `VIDEO_FPS` for `None` and for `0`; no capture, no previous frame, last time 0 |
| `VideoUtils.VideoMonitor.StartCapture` | streaming-test2/app/video_utils.py:59-84 | success iff the camera opens; on success an open capture and no previous frame; on failure no capture |
| `VideoUtils.VideoMonitor.StopCapture` | streaming-test2/app/video_utils.py:86-95 | afterwards there is no capture and no previous frame |
| `VideoUtils.VideoMonitor.GetFrame` | streaming-test2/app/video_utils.py:97-118 | a frame is returned exactly when the capture is open and the read succeeds, and it is the frame read |
| `VideoUtils.VideoMonitor.DetectSignificantChange` | streaming-test2/app/video_utils.py:120-193 | the flag-and-break contour loop computes `Detection` |
| `VideoUtils.VideoMonitor.ProcessFrameForChanges` | streaming-test2/app/video_utils.py:196-225 | returns `FrameOutcome`; the last processed time moves to now exactly when the call is not limited |
| `CameraAgents.CameraPrompt` | streaming-test2/app/camera_agent.py:156-164 | the prompt starts with the fixed opening, contains the description right after it, and has the fixed length around it |
| `CameraAgents.CameraPromptInjective` | streaming-test2/app/camera_agent.py:156-164 | different descriptions give different prompts |
| `CameraAgents.ChangeEntry` | streaming-test2/app/camera_agent.py:95-121 | the entry has exactly the copy's keys, type "video_change" and the given comment |
| `CameraAgents.CommentToLog` | streaming-test2/app/camera_agent.py:173-181 | a logged comment is never blank; nothing is logged exactly when the copy is the in_progress one and the reply is blank (streaming-test2 logs a fixed note instead); a non-blank reply is logged as is |
| `CameraAgents.PassAppendsOneChangeEntry` | streaming-test2/app/camera_agent.py:144-189 | a pass leaves the log unchanged or appends exactly one change entry to the kept entries |
| `CameraAgents.PassLogsIffReplied` | streaming-test2/app/camera_agent.py:144-189 | the log changes exactly when the prompt was sent, the model replied, and (in the in_progress copy) the reply is not blank |
| `CameraAgents.AppendEntryChanges` | streaming-test2/app/camera_agent.py:95-121 | an append always changes the file |
| `CameraAgents.ChatLifecycle` | streaming-test2/app/camera_agent.py:144-189 | the chat is kept when the model is not consulted, dropped on a model error, started lazily otherwise, and never replaced by a different session |
| `CameraAgents.ChangeLogGrownByStep` | streaming-test2/app/camera_agent.py:123-202 | each pass keeps the old entries, adds at most one entry, and every added entry is a change entry with a non-blank comment |
| `CameraAgents.ChangeLogGrownByAppend` | streaming-test2/app/camera_agent.py:95-121 | appending a change entry with a non-blank comment keeps every added entry such an entry |
| `CameraAgents.CameraAgent.Init` | streaming-test2/app/camera_agent.py:75-79 | no chat, not running, no thread |
| `CameraAgents.CameraAgent.Create` | streaming-test2/app/camera_agent.py:33-82 | empty project or location raises before the log is touched; otherwise the log is reset to `[]` and construction succeeds iff the SDK initialises |
| `CameraAgents.CameraAgent.Start` | streaming-test2/app/camera_agent.py:204-211 | running afterwards; a new thread only when it was not running |
| `CameraAgents.CameraAgent.Stop` | streaming-test2/app/camera_agent.py:213-230 | not running afterwards; the thread is cleared only when it was running |
| `CameraAgents.CameraAgent.StartChatSession` | streaming-test2/app/camera_agent.py:84-93 | an existing chat is kept; otherwise the chat is what the model hands out, and success iff it handed one out |
| `CameraAgents.CameraAgent.LogChange` | streaming-test2/app/camera_agent.py:95-121 | the camera log becomes the old log with the change entry appended |
| `CameraAgents.CameraAgent.MonitorPass` | streaming-test2/app/camera_agent.py:136-189 | one loop iteration: the frame outcome, the saved image, the chat, the log and the message sent, each as the policy functions give |
| `CameraAgents.CameraAgent.ConsultModel` | streaming-test2/app/camera_agent.py:144-189 | the chat, the camera log and the message sent after a detected change are those the pass policy functions give |
| `CameraAgents.CameraAgent.MonitorLoop` | streaming-test2/app/camera_agent.py:123-202 | if the camera does not open, running ends and nothing is logged; otherwise one pass per tick while running, each adding at most one change entry, and the loop ends with `running` cleared and the capture stopped |
| `AudioAgents.TranscriptEntry` | streaming-test2/app/audio_agent.py:60-61 | the entry has exactly the keys timestamp, speaker and text, with the given speaker and text |
| `AudioAgents.SliceStart` | streaming-test2/app/audio_agent.py:94 | the start of `[-m:]` lies within the list |
| `AudioAgents.RecentEntriesWindow` | streaming-test2/app/audio_agent.py:94 | `[-m:]` keeps the last `min(m, n)` entries for positive `m`, everything for `0`, and drops the first entries for negative `m` |
| `AudioAgents.EntryComment` | streaming-test2/app/audio_agent.py:95-96 | a comment kept from one entry is non-empty and stripped |
| `AudioAgents.CommentsOfFails` | streaming-test2/app/audio_agent.py:95-96 | the comprehension fails exactly when some entry is not an object |
| `AudioAgents.CommentsOfKept` | streaming-test2/app/audio_agent.py:95-96 | the kept comments are non-empty, stripped, and at most one per entry |
| `AudioAgents.CommentsOfLast` | streaming-test2/app/audio_agent.py:95-96 | when the newest entry carries a usable comment, it is the last kept comment |
| `AudioAgents.RefreshedContext` | streaming-test2/app/audio_agent.py:80-104 | the context is either unchanged or a non-empty stripped string |
| `AudioAgents.RefreshKeepsContextWhenUnreadable` | streaming-test2/app/audio_agent.py:82-92 | a missing, empty, corrupt or non-list camera log leaves the context unchanged |
| `AudioAgents.RefreshJoinsRecentComments` | streaming-test2/app/audio_agent.py:94-101 | with comments present, the new context contains every recent comment and starts with the oldest |
| `AudioAgents.NewestCameraCommentReachesContext` | streaming-test2/app/audio_agent.py:94-101 | a non-blank comment on the newest camera entry ends up, stripped, at the end of the context |
| `AudioAgents.RecentEntriesEndWithNewest` | streaming-test2/app/audio_agent.py:94-96 | the recent window of an all-object log still ends with the newest entry and its comments are readable |
| `AudioAgents.RefreshOfNonEmptyComments` | streaming-test2/app/audio_agent.py:98-101 | with at least one comment, the context becomes their space-joined string |
| `AudioAgents.InitialMessage` | streaming-test2/app/audio_agent.py:116 | the initial message starts with "System Info:" and embeds the camera context at its fixed place |
| `AudioAgents.DispatchMessage` | streaming-test2/app/audio_agent.py:164-184 | checks in order: unknown session, then a missing MIME type or data; a queue call exactly when the reply is "sent", on the user's own queue; audio only from an audio session with the decoded bytes; only non-empty text is logged as the user's turn |
| `AudioAgents.DispatchCoversAllMimeTypes` | streaming-test2/app/audio_agent.py:172-182 | for a valid message, text is sent, audio on an audio session is sent or gives an audio error, and anything else is unsupported |
| `AudioAgents.TextSinceLastStatusAppend` | streaming-test2/app/audio_agent.py:152-155 | audio frames do not change the text forwarded since the last status frame |
| `AudioAgents.RelayTurnIsForwardedText` | streaming-test2/app/audio_agent.py:141-161 | the turn accumulator always equals the text forwarded since the last status frame |
| `AudioAgents.RelayFramesAndLog` | streaming-test2/app/audio_agent.py:143-161 | audio frames only on audio sessions and never empty, text frames never empty; every log entry is an "agent" turn without "System Info:" |
| `AudioAgents.FramesOkAppend` | streaming-test2/app/audio_agent.py:152-160 | the frame invariant is preserved by concatenation |
| `AudioAgents.CountStatusAppend` | streaming-test2/app/audio_agent.py:143-146 | status frames of two runs add up |
| `AudioAgents.RelayOneStatusPerTurnEnd` | streaming-test2/app/audio_agent.py:143-149 | exactly one status frame per completed or interrupted turn, and at most one log entry per turn end |
| `AudioAgents.TableValidRemove` | streaming-test2/app/audio_agent.py:127-132 | removing a user keeps every session on its own request queue |
| `AudioAgents.TableValidAdd` | streaming-test2/app/audio_agent.py:106-121 | adding a user on a fresh queue keeps every session on its own request queue |
| `AudioAgents.AudioAgent.Init` | streaming-test2/app/audio_agent.py:56-57 | no sessions, context "No camera updates yet.", no queue calls |
| `AudioAgents.AudioAgent.Create` | streaming-test2/app/audio_agent.py:24-57 | project, location and Vertex AI checks in order with their errors; on success the audio log is reset and a missing camera log is created |
| `AudioAgents.AudioAgent.LogTranscription` | streaming-test2/app/audio_agent.py:59-74 | the audio log becomes the old log with one transcript entry appended |
| `AudioAgents.AudioAgent.UpdateCameraContext` | streaming-test2/app/audio_agent.py:76-78 | the context becomes the given string |
| `AudioAgents.AudioAgent.RefreshCameraContextFromLog` | streaming-test2/app/audio_agent.py:80-104 | the scan leaves the context that `RefreshedContext` gives for the camera log |
| `AudioAgents.AudioAgent.StartAdkSession` | streaming-test2/app/audio_agent.py:106-125 | an existing session is closed first and the context refreshed; on success exactly one entry for the user, with the requested mode and initial message; on failure the user is absent |
| `AudioAgents.AudioAgent.StopAdkSession` | streaming-test2/app/audio_agent.py:127-132 | the user's queue is closed and only that key removed, and no remaining user holds the closed queue; nothing happens for an absent user |
| `AudioAgents.AudioAgent.ClientToAgentHandler` | streaming-test2/app/audio_agent.py:164-184 | the reply, the queue call and the user log entry are those `DispatchMessage` decides |
| `AudioAgents.AudioAgent.AgentToClientSseHandler` | streaming-test2/app/audio_agent.py:134-161 | an unknown user gets one error frame and nothing is logged; otherwise the frames and the agent log entries are those of the relay fold |
| `EventStream.Frame` | streaming-test2/app/audio_agent.py:158-160 | a frame is `data: `, the payload, and a blank line |
| `EventStream.FrameLineEnd` | streaming-test2/app/audio_agent.py:158-160 | the data line of a frame ends right after its payload |
| `EventStream.ParseFrame` | streaming-test2/app/audio_agent.py:134-161 | reading a frame and more yields its payload followed by what the rest yields |
| `EventStream.ParseFrames` | streaming-test2/app/audio_agent.py:134-161 | a client reads back exactly the framed payloads, in order |
| `EventStream.FramesInjective` | streaming-test2/app/audio_agent.py:134-161 | different payload runs give different response bodies |
| `Server.LogContent` | streaming-test2/app/main.py:210-240 | 404 iff the type is not camera or audio; `[]` for a missing or empty file, the parse-error object for a corrupt one, the stored document otherwise, all with 200 |
| `Server.LogContentShowsAppendedEntry` | streaming-test2/app/main.py:228-235 | after an append, the log endpoint shows a list ending with the appended entry |
| `Server.StatusReply` | streaming-test2/app/main.py:243-251 | "running" iff the agent exists and runs, then with monitoring iff the capture is open; otherwise exactly `{"status": "stopped"}` |
| `Server.ReplyToHttp` | streaming-test2/app/main.py:201-207 | a sent reply passes through with 200; an agent error becomes a 400 carrying its message |
| `Server.AgentErrorsAreBadRequests` | streaming-test2/app/main.py:201-207 | for every dispatch, the endpoint fails exactly when the agent reports an error, and then with 400 and that message |
| `Server.App.constructor` | streaming-test2/app/main.py:73-74 | both agent globals start as `None` |
| `Server.App.StartupEvent` | streaming-test2/app/main.py:79-107 | missing project or location leaves the globals and logs untouched; otherwise each agent is built, and a failed constructor leaves its global `None` |
| `Server.App.LifespanStartup` | in_progress/streaming-test2/app/main.py:48-88 | missing configuration sets both globals to `None`; otherwise as start-up |
| `Server.App.StartAgents` | streaming-test2/app/main.py:89-107 | the camera agent exists, runs and shares the log directory exactly when the SDK initialises; the audio agent exists exactly when `GOOGLE_GENAI_USE_VERTEXAI` is "true"; the camera log is reset, and the audio log too when the audio agent exists |
| `Server.App.Shutdown` | streaming-test2/app/main.py:111-116 | an existing camera agent is stopped; nothing else changes |
| `Server.App.AudioSseEndpoint` | streaming-test2/app/main.py:134-180 | 503 without an agent; `is_audio` iff the value is "true"; 500 with the start error; otherwise the relayed frames, with the audio log grown by exactly the relay's agent entries; the audio log is untouched when the start fails; the user's session is gone afterwards in every case |
| `Server.App.SendMessageEndpoint` | streaming-test2/app/main.py:182-207 | 503 without an agent, 400 for bad JSON, 400 with the agent's error, else the agent's reply; the queue call and the "user" transcript entry are those `DispatchMessage` decides, and bad JSON makes neither; the session table is untouched |
| `Multimodal.MissingSetting` | app/agent.py:15-20 | the first empty setting among project, location and model names its error; none iff all are present |
| `Multimodal.EventQueue.constructor` | streaming-test/app/agent.py:60 | a new queue is empty |
| `Multimodal.Enqueue` | streaming-test/app/agent.py:68 | an event is appended to a present queue and nothing happens without one |
| `Multimodal.ChangePrompt` | streaming-test/app/agent.py:125 | the prompt starts with the fixed opening, contains the description right after it, and ends with the fixed closing |
| `Multimodal.ChangePromptInjective` | streaming-test/app/agent.py:125 | different descriptions give different prompts |
| `Multimodal.ChangeMessage` | streaming-test/app/agent.py:124-127 | the video-change message is the prompt assembly of the prompt and one JPEG part |
| `Multimodal.AccessorReply` | streaming-test/app/agent.py:157-162 | a reply exactly when the model answered and `response.text` exists, and then that text; otherwise the exception propagates |
| `Multimodal.SendOutcome` | app/agent.py:43-94 | `ValueError` exactly when the prompt is empty; a reply exactly when there is something to send and the model answered with text |
| `BasicAgent.MultimodalAgent.Init` | app/agent.py:22-31 | the settings are kept and there is no chat |
| `BasicAgent.MultimodalAgent.Create` | app/agent.py:6-33 | raises the first missing setting's `ValueError`; otherwise succeeds iff the SDK initialises, with no chat |
| `BasicAgent.MultimodalAgent.StartChat` | app/agent.py:35-41 | the chat is replaced by the new session, which is returned |
| `BasicAgent.MultimodalAgent.SendMessage` | app/agent.py:43-94 | a chat is started only when there is none; the outcome is `SendOutcome`; parts are sent exactly when there is content, in the assembled order |
| `StreamingAgent.VoiceRun` | streaming-test/app/agent.py:60-100 | each status is reported exactly when its step is the first to fail; a raise only after a transcription; on success exactly a transcription then the reply text; playback iff a non-empty reply was synthesised; a status is always last |
| `StreamingAgent.CommentEvents` | streaming-test/app/agent.py:129-134 | at most one event, present exactly for a non-empty reply, and carrying it |
| `StreamingAgent.MultimodalAgent.Init` | streaming-test/app/agent.py:19-25 | the settings and monitor are kept and there is no chat |
| `StreamingAgent.MultimodalAgent.Create` | streaming-test/app/agent.py:11-30 | raises the first missing setting's `ValueError`; otherwise succeeds iff the SDK initialises, with a one-frame-per-second monitor and no chat |
| `StreamingAgent.MultimodalAgent.StartChat` | streaming-test/app/agent.py:32-40 | the chat is the new session; capture is started only when there is no capture object |
| `StreamingAgent.MultimodalAgent.StopChat` | streaming-test/app/agent.py:42-46 | no chat and no capture afterwards; the capture is stopped only if it existed |
| `StreamingAgent.MultimodalAgent.EnsureChat` | streaming-test/app/agent.py:139-140 | a chat is started only when there is none |
| `StreamingAgent.MultimodalAgent.SendTextMessage` | streaming-test/app/agent.py:48-58 | lazy chat start; the reply is `response.text` and an exception propagates |
| `StreamingAgent.MultimodalAgent.SendMessage` | streaming-test/app/agent.py:138-162 | lazy chat start before the empty check; the outcome is `SendOutcome`; the parts sent are the assembled prompt |
| `StreamingAgent.MultimodalAgent.HandleVoiceInteraction` | streaming-test/app/agent.py:60-100 | lazy chat start; the queue receives exactly the events of `VoiceRun`, and playback and raising are as `VoiceRun` says |
| `StreamingAgent.MultimodalAgent.CheckForVideoChangesAndComment` | streaming-test/app/agent.py:103-136 | no processing without an open capture unless a chat exists and the restart opens it; a change with bytes sends the prompt and frame; exactly one comment for a non-empty reply |
| `StreamingAgentDraft.TextReply` | in_progress/streaming-test/app/agent.py:51-68 | raises exactly on a model error; otherwise the guarded first-part text |
| `StreamingAgentDraft.SendOrNone` | in_progress/streaming-test/app/agent.py:167-208 | `None` exactly for an empty call or a model error; otherwise the guarded first-part text |
| `StreamingAgentDraft.VoiceRun` | in_progress/streaming-test/app/agent.py:70-128 | "Model did not respond." is never reported; the other statuses as the first failing step; any reply, even empty, is passed on; playback iff the reply is not blank and was synthesised |
| `StreamingAgentDraft.CommentEvents` | in_progress/streaming-test/app/agent.py:157-163 | at most one event, present exactly for a present non-empty reply |
| `StreamingAgentDraft.MultimodalAgent.Init` | in_progress/streaming-test/app/agent.py:19-25 | the settings and monitor are kept and there is no chat |
| `StreamingAgentDraft.MultimodalAgent.Create` | in_progress/streaming-test/app/agent.py:11-30 | raises the first missing setting's `ValueError`; otherwise succeeds iff the SDK initialises, with a one-frame-per-second monitor and no chat |
| `StreamingAgentDraft.MultimodalAgent.StartChat` | in_progress/streaming-test/app/agent.py:32-41 | the chat is the new session; capture is started only when there is no capture object |
| `StreamingAgentDraft.MultimodalAgent.StopChat` | in_progress/streaming-test/app/agent.py:43-49 | no chat and no capture afterwards; the capture is stopped only if it existed |
| `StreamingAgentDraft.MultimodalAgent.EnsureChat` | in_progress/streaming-test/app/agent.py:168-170 | a chat is started only when there is none |
| `StreamingAgentDraft.MultimodalAgent.SendTextMessage` | in_progress/streaming-test/app/agent.py:51-68 | lazy chat start; the reply is `TextReply` |
| `StreamingAgentDraft.MultimodalAgent.SendMessage` | in_progress/streaming-test/app/agent.py:167-208 | lazy chat start; the outcome is `SendOrNone`; the parts sent are the assembled prompt, and nothing is sent for an empty call |
| `StreamingAgentDraft.MultimodalAgent.ShowAndSpeak` | in_progress/streaming-test/app/agent.py:109-126 | the reply text is put on the queue as one `model_response_audio_text` event, and it is played exactly when it is not blank and synthesis gave audio |
| `StreamingAgentDraft.MultimodalAgent.HandleVoiceInteraction` | in_progress/streaming-test/app/agent.py:70-128 | lazy chat start; the queue receives exactly the events of `VoiceRun`, and playback and raising are as `VoiceRun` says |
| `StreamingAgentDraft.MultimodalAgent.CheckForVideoChangesAndComment` | in_progress/streaming-test/app/agent.py:131-165 | as in the streaming-test copy, but a model error is swallowed and only a present, non-empty reply is put on the queue |

## Left out

- Threads, `time.sleep` and `thread.join`: `CameraAgents.CameraAgent.MonitorLoop` is the body the thread runs, over a finite run of ticks.
- Async generators and client disconnects: `Server.App.AudioSseEndpoint` runs the event stream to its end. `request.is_disconnected` and cancellation are not modelled.
- OpenCV: MOG2 background subtraction, morphology, `findContours`, `contourArea` and `imencode` are replaced by their results (`VideoUtils.Sensor`).
- The Vertex AI SDK and ADK runtime are replaced by outcome values: model replies, session creation, `vertexai.init`, `GenerativeModel`, `InMemoryRunner`, `run_live` and `LiveRequestQueue`.
- Exceptions raised by `model.start_chat` in the `MultimodalAgent` copies: their `start_chat` has no handler, and the model takes the session as given.
- File I/O errors (`IOError` while writing a log): writes always succeed. A log file is what a reader finds in it, not its bytes.
- The JSON encoder and decoder, and base64 (section 4 of RFC 4648): both are opaque. A decoded audio payload is an input.
- `VideoUtils.VideoMonitor.ProcessFrameForChanges`: time is an unrounded real number of seconds, and `1.0 / fps_limit` is exact real division.
- `CameraAgents.CameraAgent.MonitorLoop`: a pass never raises. The outer `except Exception` at streaming-test2/app/camera_agent.py:196-198, which would catch an OpenCV or file error in a pass, log it, sleep and go on with the next pass, is not modelled.
- `GenAi.FirstPartText`: a part without text has `text == None`. Should the SDK's `Part.text` accessor raise for such a part instead, that exception is not modelled.
- `CameraAgents.CameraAgent.MonitorPass`: the processing time in milliseconds is an input. Its rounding to two places and the ISO timestamps are not modelled.
- `Text.Strip`: removes ASCII and Latin-1 whitespace only, not every Unicode whitespace character Python's `str.strip` removes.
- `Text.Lower`: lowers ASCII letters only.
- `AudioAgents.DispatchMessage`: client JSON fields are optional strings. A non-object body, or non-string `mime_type` and `data` values, are not modelled.
- `AudioAgents.AudioAgent.AgentToClientSseHandler`: an inline-data part always has a MIME type. A `None` MIME type, on which the source would raise, is not modelled.
- `EventStream.Frame`: the `yield f"data: …` strings at streaming-test2/app/audio_agent.py:136-138, 144-146, 153-155 and 158-160 hold raw line breaks inside a single-quoted f-string, which Python rejects as a syntax error. The model follows the evident intent, the `\n\n` that ends an event-stream event.
- `EventStream.ParseFrames`: the reader handles only what the handler writes (one `data: ` line per event, line feeds only). Other fields, comments and carriage returns of the full event-stream grammar are not read.
- `app.config` `VIDEO_FPS` of streaming-test2: it is a constructor parameter. Only the fallback value 1 is a constant.
- The test code at streaming-test2/app/video_utils.py:254-290: its `if __name__` guard is commented out while its body stays indented, so it runs as part of the `VideoMonitor` class body. There, line 257 refers to `VideoMonitor` before the class name is bound and raises `NameError`, so importing the module (camera_agent.py:14, and main.py through it) fails as written. The model treats the class as if that block were not there.
- `if __name__ == '__main__'` blocks of the agent files: manual test drivers.
- `process_image_input`, `process_audio_input` and `process_video_input` of app/agent.py: placeholders whose bodies are `pass`.
- The parts summary loop of `send_message` in in_progress/streaming-test/app/agent.py: it only builds a printed summary.
- `play_audio_bytes`, `record_audio`, `transcribe_audio_bytes` and `synthesize_text_to_audio_bytes` (streaming-test/app/audio_utils.py): their results are inputs (`Multimodal.VoiceIo`), and what is played is an output.
- in_progress/streaming-test2/app/audio_agent.py is not part of this model: the in_progress server's audio agent is modelled by the streaming-test2 `AudioAgent`.
- in_progress/streaming-test/app/video_utils.py is not part of this model. That copy's `MultimodalAgent` imports the `video_utils` of its own directory (in_progress/streaming-test/app/agent.py:7), and the model puts the streaming-test `VideoMonitor` in its place. Both agents pass `fps_limit=1`, so the fps default does not matter there.
- web_interface.py files, run.py, the MJPEG generators, the static HTML and FastAPI routing: web and I/O plumbing.
- The streaming-test3 `LlmAgent` subclasses, config.py constants other than `VIDEO_FPS`, and the ADK crash-course examples: outside the core.
