/** `AudioAgent` from `streaming-test2/app/audio_agent.py`: the table of
    live sessions per user, the relay from a live session's events to
    server-sent-event frames, the dispatch of client messages, the audio
    transcript log and the camera context rebuilt from the camera log.
    The ADK runner, its live event stream and its request queue are not
    modelled: the events a session yields are an input, and the calls made
    on request queues are recorded in `queueCalls`. */
module AudioAgents {
  import opened Wrappers
  import opened Text
  import opened JsonLog
  import opened GenAi

  const ProjectIdRequired := "AUDIO_AGENT: Google Cloud Project ID is required."
  const LocationRequired := "AUDIO_AGENT: Google Cloud Location is required."
  const VertexAiRequired := "AUDIO_AGENT: GOOGLE_GENAI_USE_VERTEXAI must be set to True in .env"
  const NoCameraUpdates := "No camera updates yet."
  const SystemInfo := "System Info:"
  const SessionNotFound := "Session not found."
  const InvalidMessage := "Invalid message."
  const UnsupportedMime := "Unsupported mime/session."
  const AudioErrorPrefix := "Audio error: "
  const TextPlain := "text/plain"
  const AudioPrefix := "audio/"
  const DefaultMaxEntries := 3

  // ---------------------------------------------------------------------
  // Transcript log

  /** The entry `_log_transcription` appends to `audio_log.json`. */
  function TranscriptEntry(timestamp: string, speaker: string, text: string): (e: Json)
    ensures e.JObject? && e.fields.Keys == {"timestamp", "speaker", "text"}
    ensures e.fields["speaker"] == JString(speaker) && e.fields["text"] == JString(text)
  {
    JObject(map["timestamp" := JString(timestamp), "speaker" := JString(speaker), "text" := JString(text)])
  }

  // ---------------------------------------------------------------------
  // Camera context

  /** Where `entries[-m:]` starts, with Python's slicing rules: a positive
      `m` keeps the last `m`, `m == 0` keeps everything (`[-0:]` is `[0:]`)
      and a negative `m` drops the first `-m`. */
  function SliceStart(len: nat, m: int): (start: nat)
    ensures start <= len
  {
    if m > 0 then (if m >= len then 0 else len - m)
    else if m == 0 then 0
    else if -m >= len then len
    else -m
  }

  /** `entries[-max_entries:]` */
  function RecentEntries(entries: seq<Json>, maxEntries: int): seq<Json> {
    entries[SliceStart(|entries|, maxEntries)..]
  }

  /** The default `max_entries=3` keeps the last three entries (all of them
      when there are fewer), and `max_entries=0` keeps the whole list. */
  lemma RecentEntriesWindow(entries: seq<Json>, maxEntries: int)
    ensures maxEntries > 0 ==> RecentEntries(entries, maxEntries) == entries[|entries| - Min(maxEntries, |entries|)..]
    ensures maxEntries > 0 ==> |RecentEntries(entries, maxEntries)| == Min(maxEntries, |entries|)
    ensures maxEntries == 0 ==> RecentEntries(entries, maxEntries) == entries
    ensures maxEntries < 0 ==> |RecentEntries(entries, maxEntries)| == |entries| - Min(-maxEntries, |entries|)
  {
  }

  function Min(a: int, b: int): int {
    if a <= b then a else b
  }

  /** The comment kept from one object entry, if any: its string
      `comment_by_llm`, stripped, unless that is empty. */
  function EntryComment(e: Json): (c: Option<string>)
    requires e.JObject?
    ensures c.Some? ==> c.value != "" && IsStripped(c.value)
  {
    if "comment_by_llm" in e.fields && e.fields["comment_by_llm"].JString? && Strip(e.fields["comment_by_llm"].s) != ""
    then Some(Strip(e.fields["comment_by_llm"].s)) else None
  }

  /** Every entry is a JSON object (so `log.get` works on each). */
  predicate AllObjects(entries: seq<Json>) {
    forall k :: 0 <= k < |entries| ==> entries[k].JObject?
  }

  lemma AllObjectsCons(entries: seq<Json>)
    requires |entries| > 0
    ensures AllObjects(entries) <==> entries[0].JObject? && AllObjects(entries[1..])
  {
    if entries[0].JObject? && AllObjects(entries[1..]) {
      forall k | 0 < k < |entries|
        ensures entries[k].JObject?
      {
        assert entries[k] == entries[1..][k - 1];
      }
    }
  }

  /** The comprehensions over the recent entries: keep each string
      `comment_by_llm`, stripped, and drop the empty ones. `None` when an
      entry is not an object, where `log.get` raises and the refresh is
      abandoned. */
  function CommentsOf(entries: seq<Json>): Option<seq<string>>
    decreases |entries|
  {
    if |entries| == 0 then Some([])
    else if !entries[0].JObject? then None
    else
      var rest := CommentsOf(entries[1..]);
      if rest.None? then None
      else
        var c := EntryComment(entries[0]);
        if c.Some? then Some([c.value] + rest.value) else rest
  }

  /** The comprehension fails exactly when some entry is not an object. */
  lemma {:induction false} CommentsOfFails(entries: seq<Json>)
    ensures CommentsOf(entries).None? <==> !AllObjects(entries)
    decreases |entries|
  {
    if |entries| > 0 {
      AllObjectsCons(entries);
      CommentsOfFails(entries[1..]);
    }
  }

  /** What the comprehension keeps: at most one comment per entry, each
      non-empty and stripped. */
  lemma {:induction false} CommentsOfKept(entries: seq<Json>)
    requires CommentsOf(entries).Some?
    ensures var cs := CommentsOf(entries).value;
      && |cs| <= |entries|
      && forall k :: 0 <= k < |cs| ==> cs[k] != "" && IsStripped(cs[k])
    decreases |entries|
  {
    if |entries| > 0 {
      CommentsOfKept(entries[1..]);
      var rest := CommentsOf(entries[1..]).value;
      var c := EntryComment(entries[0]);
      if c.Some? {
        var cs := [c.value] + rest;
        assert forall k :: 0 < k < |cs| ==> cs[k] == rest[k - 1];
      }
    }
  }

  /** One step of the comprehension: the first entry's comment, if any,
      comes before the comments of the others. */
  lemma CommentsOfCons(entries: seq<Json>)
    requires |entries| > 0 && CommentsOf(entries).Some?
    ensures entries[0].JObject? && CommentsOf(entries[1..]).Some?
    ensures CommentsOf(entries).value ==
      (if EntryComment(entries[0]).Some? then [EntryComment(entries[0]).value] else []) + CommentsOf(entries[1..]).value
  {
  }

  /** Comments of a list that ends with `e` end with the comment of `e`. */
  lemma {:induction false} CommentsOfLast(entries: seq<Json>)
    requires |entries| > 0 && CommentsOf(entries).Some?
    ensures entries[|entries| - 1].JObject?
    ensures EntryComment(entries[|entries| - 1]).Some? ==>
      |CommentsOf(entries).value| > 0
      && CommentsOf(entries).value[|CommentsOf(entries).value| - 1] == EntryComment(entries[|entries| - 1]).value
  {
    var tail := entries[1..];
    CommentsOfCons(entries);
    if |entries| > 1 {
      CommentsOfLast(tail);
      assert tail[|tail| - 1] == entries[|entries| - 1];
    } else {
      assert tail == [];
    }
  }

  /** The context `refresh_camera_context_from_log(max_entries)` leaves:
      unchanged when the camera log is missing, empty, unreadable, holds no
      list, holds an empty list, holds a non-object among the recent
      entries, or holds no usable comment among them; otherwise the usable
      comments joined with single spaces. */
  function RefreshedContext(log: LogFile, maxEntries: int, current: string): (ctx: string)
    ensures ctx == current || (ctx != "" && IsStripped(ctx))
  {
    var entries := ExistingEntries(log);
    if |entries| == 0 then current
    else match CommentsOf(RecentEntries(entries, maxEntries))
      case None => current
      case Some(comments) =>
        if |comments| == 0 then current
        else
          CommentsOfKept(RecentEntries(entries, maxEntries));
          JoinSpaceStripped(comments);
          JoinSpace(comments)
  }

  /** A log that does not hold a non-empty list leaves the context alone. */
  lemma RefreshKeepsContextWhenUnreadable(log: LogFile, maxEntries: int, current: string)
    requires log.Missing? || log.EmptyFile? || log.Corrupt? || (log.Stored? && !log.doc.JArray?)
             || log == ListFile([])
    ensures RefreshedContext(log, maxEntries, current) == current
  {
  }

  /** A refreshed context holds every usable recent comment, in order of the
      log: the first starts it and the last ends it. */
  lemma RefreshJoinsRecentComments(entries: seq<Json>, maxEntries: int, current: string, i: nat)
    requires CommentsOf(RecentEntries(entries, maxEntries)).Some?
    requires i < |CommentsOf(RecentEntries(entries, maxEntries)).value|
    ensures var comments := CommentsOf(RecentEntries(entries, maxEntries)).value;
      var ctx := RefreshedContext(ListFile(entries), maxEntries, current);
      && Contains(ctx, comments[i])
      && StartsWith(ctx, comments[0])
  {
    var comments := CommentsOf(RecentEntries(entries, maxEntries)).value;
    assert |entries| > 0;
    CommentsOfKept(RecentEntries(entries, maxEntries));
    JoinSpaceContains(comments, i);
    JoinSpaceStripped(comments);
  }

  /** The camera agent's newest comment reaches the audio agent: when the
      newest camera log entry is a `video_change` entry with a non-blank
      comment and the recent entries are all objects, the refreshed context
      ends with that comment, stripped. */
  lemma NewestCameraCommentReachesContext(entries: seq<Json>, maxEntries: int, current: string)
    requires |entries| > 0 && maxEntries >= 0
    requires AllObjects(entries)
    requires var e := entries[|entries| - 1];
      "comment_by_llm" in e.fields && e.fields["comment_by_llm"].JString?
      && !IsBlank(e.fields["comment_by_llm"].s)
    ensures var c := Strip(entries[|entries| - 1].fields["comment_by_llm"].s);
      var ctx := RefreshedContext(ListFile(entries), maxEntries, current);
      |c| <= |ctx| && ctx[|ctx| - |c|..] == c
  {
    var e := entries[|entries| - 1];
    var recent := RecentEntries(entries, maxEntries);
    RecentEntriesEndWithNewest(entries, maxEntries);
    var c := Strip(e.fields["comment_by_llm"].s);
    StripEmptyIffBlank(e.fields["comment_by_llm"].s);
    assert EntryComment(e) == Some(c);
    CommentsOfLast(recent);
    var comments := CommentsOf(recent).value;
    CommentsOfKept(recent);
    JoinSpaceStripped(comments);
    RefreshOfNonEmptyComments(entries, maxEntries, current);
  }

  lemma RecentEntriesEndWithNewest(entries: seq<Json>, maxEntries: int)
    requires |entries| > 0 && maxEntries >= 0
    requires AllObjects(entries)
    ensures var recent := RecentEntries(entries, maxEntries);
      |recent| > 0 && recent[|recent| - 1] == entries[|entries| - 1]
      && CommentsOf(recent).Some?
  {
    var recent := RecentEntries(entries, maxEntries);
    var start := SliceStart(|entries|, maxEntries);
    assert forall k :: 0 <= k < |recent| ==> recent[k] == entries[start + k];
    CommentsOfFails(recent);
  }

  lemma RefreshOfNonEmptyComments(entries: seq<Json>, maxEntries: int, current: string)
    requires |entries| > 0
    requires CommentsOf(RecentEntries(entries, maxEntries)).Some?
    requires |CommentsOf(RecentEntries(entries, maxEntries)).value| > 0
    ensures RefreshedContext(ListFile(entries), maxEntries, current) == JoinSpace(CommentsOf(RecentEntries(entries, maxEntries)).value)
  {
  }

  // ---------------------------------------------------------------------
  // Sessions and the messages that cross them

  /** What `active_adk_sessions[user_id]` holds: the live request queue (by
      number), whether the session answers in audio, and the first request
      sent on it. */
  datatype Session = Session(queue: nat, isAudio: bool, initialMessage: string)

  /** A call made on a live request queue. */
  datatype QueueCall =
    | SendContent(queue: nat, text: string)
    | SendRealtime(queue: nat, data: Bytes, mimeType: string)
    | Close(queue: nat)

  /** The first request of a session, carrying the camera context. */
  function InitialMessage(cameraContext: string): (m: string)
    ensures StartsWith(m, SystemInfo)
    ensures OccursAt(m, cameraContext, |"System Info: Visual context: '"|)
  {
    var prefix := "System Info: Visual context: '";
    var m := prefix + cameraContext + "'. Please wait for user.";
    assert m[..|SystemInfo|] == SystemInfo;
    assert m[|prefix|..|prefix| + |cameraContext|] == cameraContext;
    m
  }

  /** A client message body: the `mime_type` and `data` members, `None`
      when absent or `null`. */
  datatype ClientMessage = ClientMessage(mimeType: Option<string>, data: Option<string>)

  /** What `client_to_agent_handler` returns: `{"status": "sent"}` or
      `{"error": message}`. */
  datatype HandlerReply = Sent | HandlerError(message: string)

  /** The outcome of dispatching one client message: the reply, the call
      made on the session's queue and the text logged as said by the user. */
  datatype Dispatch = Dispatch(reply: HandlerReply, call: Option<QueueCall>, userText: Option<string>)

  /** The checks of `client_to_agent_handler`, in the order they are made.
      `decoded` is the outcome of `base64.b64decode(data)` (RFC 4648,
      section 4), which is not modelled. */
  function DispatchMessage(session: Option<Session>, msg: ClientMessage, decoded: Result<Bytes, string>): (d: Dispatch)
    ensures session.None? ==> d == Dispatch(HandlerError(SessionNotFound), None, None)
    ensures session.Some? && (msg.mimeType.None? || msg.mimeType == Some("") || msg.data.None?)
            ==> d == Dispatch(HandlerError(InvalidMessage), None, None)
    ensures d.reply == Sent <==> d.call.Some?
    ensures d.call.Some? ==> d.call.value.queue == session.value.queue
    ensures d.call.Some? && d.call.value.SendContent? <==> d.reply == Sent && msg.mimeType == Some(TextPlain)
    ensures d.call.Some? && d.call.value.SendRealtime? ==>
      session.value.isAudio && StartsWith(msg.mimeType.value, AudioPrefix)
      && decoded.Success? && d.call.value.data == decoded.value && d.call.value.mimeType == msg.mimeType.value
    ensures d.userText.Some? ==> d.call.Some? && d.call.value.SendContent? && d.userText.value != ""
                                 && d.call.value.text == d.userText.value
  {
    if session.None? then Dispatch(HandlerError(SessionNotFound), None, None)
    else if msg.mimeType.None? || msg.mimeType.value == "" || msg.data.None? then
      Dispatch(HandlerError(InvalidMessage), None, None)
    else
      var mime, data, q := msg.mimeType.value, msg.data.value, session.value.queue;
      if mime == TextPlain then
        Dispatch(Sent, Some(SendContent(q, data)), if data != "" then Some(data) else None)
      else if StartsWith(mime, AudioPrefix) && session.value.isAudio then
        match decoded
        case Failure(e) => Dispatch(HandlerError(AudioErrorPrefix + e), None, None)
        case Success(bytes) => Dispatch(Sent, Some(SendRealtime(q, bytes, mime)), None)
      else Dispatch(HandlerError(UnsupportedMime), None, None)
  }

  /** Audio reaches the model only from audio sessions, and every message
      that is not rejected earlier is either plain text, audio for an audio
      session, or refused as unsupported. */
  lemma DispatchCoversAllMimeTypes(s: Session, mime: string, data: string, decoded: Result<Bytes, string>)
    requires mime != ""
    ensures var d := DispatchMessage(Some(s), ClientMessage(Some(mime), Some(data)), decoded);
      || (mime == TextPlain && d.reply == Sent)
      || (StartsWith(mime, AudioPrefix) && s.isAudio && (d.reply == Sent <==> decoded.Success?))
      || ((mime == TextPlain || !StartsWith(mime, AudioPrefix) || !s.isAudio)
          && mime != TextPlain && d.reply == HandlerError(UnsupportedMime))
  {
  }

  // ---------------------------------------------------------------------
  // Live events and server-sent events

  datatype InlineData = InlineData(mimeType: string, data: Bytes)
  datatype EventPart = EventPart(text: Option<string>, inlineData: Option<InlineData>)
  datatype EventContent = EventContent(role: string, parts: seq<EventPart>)
  /** An event of the live stream `runner.run_live` yields. */
  datatype LiveEvent = LiveEvent(turnComplete: bool, interrupted: bool, content: Option<EventContent>)
  /** An event together with the time it is handled at (for the log). */
  datatype Timed = Timed(event: LiveEvent, at: string)

  /** The JSON object carried by one frame of the event stream. */
  datatype SseMessage =
    | NotFound
    | TurnStatus(turnComplete: bool, interrupted: bool)
    | AudioChunk(mimeType: string, data: Bytes)
    | TextChunk(text: string)

  /** The state of `agent_to_client_sse_handler`'s loop: the frames sent so
      far, the text of the current turn, and the transcript entries
      logged. */
  datatype RelayState = RelayState(frames: seq<SseMessage>, turn: string, logged: seq<Json>)

  /** Whether a turn's text is logged when the turn ends. */
  predicate LoggableTurn(turn: string) {
    turn != "" && !Contains(turn, SystemInfo)
  }

  /** The audio frame an event's first part yields, if any. */
  function AudioFrames(isAudio: bool, part: EventPart): seq<SseMessage> {
    if isAudio && part.inlineData.Some? && StartsWith(part.inlineData.value.mimeType, AudioPrefix)
       && |part.inlineData.value.data| > 0
    then [AudioChunk(part.inlineData.value.mimeType, part.inlineData.value.data)]
    else []
  }

  /** Whether an event's first part has text that is forwarded (text the
      model itself wrote containing "System Info:" is not). */
  predicate ForwardsText(role: string, part: EventPart) {
    part.text.Some? && part.text.value != "" && !(Contains(part.text.value, SystemInfo) && role == "model")
  }

  /** One turn of the loop. */
  function RelayStep(isAudio: bool, st: RelayState, t: Timed): RelayState {
    var e := t.event;
    if e.turnComplete || e.interrupted then
      RelayState(st.frames + [TurnStatus(e.turnComplete, e.interrupted)], "",
                 st.logged + (if LoggableTurn(st.turn) then [TranscriptEntry(t.at, "agent", st.turn)] else []))
    else if e.content.None? || |e.content.value.parts| == 0 then st
    else
      var part := e.content.value.parts[0];
      var audio := AudioFrames(isAudio, part);
      if ForwardsText(e.content.value.role, part) then
        RelayState(st.frames + audio + [TextChunk(part.text.value)], st.turn + part.text.value, st.logged)
      else RelayState(st.frames + audio, st.turn, st.logged)
  }

  /** The loop run over `events` from the start. */
  function Relay(isAudio: bool, events: seq<Timed>): RelayState
    decreases |events|
  {
    if |events| == 0 then RelayState([], "", [])
    else RelayStep(isAudio, Relay(isAudio, events[..|events| - 1]), events[|events| - 1])
  }

  /** The text sent since the last status frame. */
  function TextSinceLastStatus(frames: seq<SseMessage>): string
    decreases |frames|
  {
    if |frames| == 0 then ""
    else
      var last := frames[|frames| - 1];
      if last.TurnStatus? then ""
      else if last.TextChunk? then TextSinceLastStatus(frames[..|frames| - 1]) + last.text
      else TextSinceLastStatus(frames[..|frames| - 1])
  }

  lemma {:induction false} TextSinceLastStatusAppend(frames: seq<SseMessage>, more: seq<SseMessage>)
    requires forall k :: 0 <= k < |more| ==> more[k].AudioChunk?
    ensures TextSinceLastStatus(frames + more) == TextSinceLastStatus(frames)
    decreases |more|
  {
    if |more| > 0 {
      var all := frames + more;
      assert all[..|all| - 1] == frames + more[..|more| - 1];
      assert all[|all| - 1] == more[|more| - 1];
      assert all[|all| - 1].AudioChunk?;
      TextSinceLastStatusAppend(frames, more[..|more| - 1]);
      assert TextSinceLastStatus(all) == TextSinceLastStatus(all[..|all| - 1]);
    } else {
      assert frames + more == frames;
    }
  }

  /** The turn being accumulated is exactly the text forwarded since the
      last status frame; so each logged agent turn is what the client was
      sent as text during that turn. */
  lemma {:induction false} RelayTurnIsForwardedText(isAudio: bool, events: seq<Timed>)
    ensures Relay(isAudio, events).turn == TextSinceLastStatus(Relay(isAudio, events).frames)
    decreases |events|
  {
    if |events| > 0 {
      var st := Relay(isAudio, events[..|events| - 1]);
      RelayTurnIsForwardedText(isAudio, events[..|events| - 1]);
      var next := Relay(isAudio, events);
      assert next == RelayStep(isAudio, st, events[|events| - 1]);
      var e := events[|events| - 1].event;
      if e.turnComplete || e.interrupted {
        assert next.frames[|next.frames| - 1].TurnStatus?;
      } else if e.content.Some? && |e.content.value.parts| > 0 {
        var part := e.content.value.parts[0];
        var audio := AudioFrames(isAudio, part);
        TextSinceLastStatusAppend(st.frames, audio);
        if ForwardsText(e.content.value.role, part) {
          var fs := st.frames + audio + [TextChunk(part.text.value)];
          assert next.frames == fs && next.turn == st.turn + part.text.value;
          assert fs[..|fs| - 1] == st.frames + audio;
          assert TextSinceLastStatus(fs) == TextSinceLastStatus(st.frames + audio) + part.text.value;
        } else {
          assert next.frames == st.frames + audio && next.turn == st.turn;
        }
      }
    }
  }

  /** Frames the relay may send: audio only for an audio session and never
      empty, text never empty. */
  predicate FramesOk(isAudio: bool, frames: seq<SseMessage>) {
    && (forall k :: 0 <= k < |frames| && frames[k].AudioChunk? ==> isAudio && |frames[k].data| > 0)
    && (forall k :: 0 <= k < |frames| && frames[k].TextChunk? ==> frames[k].text != "")
  }

  /** Transcript entries the relay may log: agent turns that are neither
      empty nor carry "System Info:". */
  predicate LoggedOk(logged: seq<Json>) {
    forall k :: 0 <= k < |logged| ==>
      && logged[k].JObject? && "speaker" in logged[k].fields && "text" in logged[k].fields
      && logged[k].fields["speaker"] == JString("agent")
      && logged[k].fields["text"].JString? && LoggableTurn(logged[k].fields["text"].s)
  }

  /** What the relay promises whatever the events: no audio frame for a
      text session, no empty text frame, and a logged agent turn is never
      empty and never carries "System Info:". */
  lemma {:induction false} RelayFramesAndLog(isAudio: bool, events: seq<Timed>)
    ensures FramesOk(isAudio, Relay(isAudio, events).frames)
    ensures LoggedOk(Relay(isAudio, events).logged)
    decreases |events|
  {
    if |events| > 0 {
      var st := Relay(isAudio, events[..|events| - 1]);
      RelayFramesAndLog(isAudio, events[..|events| - 1]);
      var t := events[|events| - 1];
      var e := t.event;
      if e.turnComplete || e.interrupted {
        var more := [TurnStatus(e.turnComplete, e.interrupted)];
        assert FramesOk(isAudio, more);
        FramesOkAppend(isAudio, st.frames, more);
        var entry := if LoggableTurn(st.turn) then [TranscriptEntry(t.at, "agent", st.turn)] else [];
        assert LoggedOk(entry);
        assert LoggedOk(st.logged + entry);
      } else if e.content.Some? && |e.content.value.parts| > 0 {
        var part := e.content.value.parts[0];
        var audio := AudioFrames(isAudio, part);
        assert FramesOk(isAudio, audio);
        FramesOkAppend(isAudio, st.frames, audio);
        if ForwardsText(e.content.value.role, part) {
          var text := [TextChunk(part.text.value)];
          assert FramesOk(isAudio, text);
          FramesOkAppend(isAudio, st.frames + audio, text);
        }
      }
    }
  }

  lemma FramesOkAppend(isAudio: bool, a: seq<SseMessage>, b: seq<SseMessage>)
    requires FramesOk(isAudio, a) && FramesOk(isAudio, b)
    ensures FramesOk(isAudio, a + b)
  {
    forall k | 0 <= k < |a + b|
      ensures (a + b)[k] == if k < |a| then a[k] else b[k - |a|]
    {
    }
  }

  /** The number of status frames equals the number of turn-ending
      events, and a logged turn is one per status frame at most. */
  function CountStatus(frames: seq<SseMessage>): nat
    decreases |frames|
  {
    if |frames| == 0 then 0
    else CountStatus(frames[..|frames| - 1]) + if frames[|frames| - 1].TurnStatus? then 1 else 0
  }

  lemma {:induction false} CountStatusAppend(a: seq<SseMessage>, b: seq<SseMessage>)
    ensures CountStatus(a + b) == CountStatus(a) + CountStatus(b)
    decreases |b|
  {
    if |b| > 0 {
      var all := a + b;
      assert all[..|all| - 1] == a + b[..|b| - 1];
      assert all[|all| - 1] == b[|b| - 1];
      CountStatusAppend(a, b[..|b| - 1]);
    } else {
      assert a + b == a;
    }
  }

  function CountTurnEnds(events: seq<Timed>): nat
    decreases |events|
  {
    if |events| == 0 then 0
    else
      var e := events[|events| - 1].event;
      CountTurnEnds(events[..|events| - 1]) + if e.turnComplete || e.interrupted then 1 else 0
  }

  lemma {:induction false} RelayOneStatusPerTurnEnd(isAudio: bool, events: seq<Timed>)
    ensures CountStatus(Relay(isAudio, events).frames) == CountTurnEnds(events)
    ensures |Relay(isAudio, events).logged| <= CountTurnEnds(events)
    decreases |events|
  {
    if |events| > 0 {
      var st := Relay(isAudio, events[..|events| - 1]);
      RelayOneStatusPerTurnEnd(isAudio, events[..|events| - 1]);
      var e := events[|events| - 1].event;
      if e.turnComplete || e.interrupted {
        CountStatusAppend(st.frames, [TurnStatus(e.turnComplete, e.interrupted)]);
        assert CountStatus([TurnStatus(e.turnComplete, e.interrupted)]) == 1;
      } else if e.content.Some? && |e.content.value.parts| > 0 {
        var part := e.content.value.parts[0];
        var audio := AudioFrames(isAudio, part);
        CountStatusAppend(st.frames, audio);
        assert CountStatus(audio) == 0 by {
          if |audio| > 0 { assert audio[..0] == []; }
        }
        if ForwardsText(e.content.value.role, part) {
          CountStatusAppend(st.frames + audio, [TextChunk(part.text.value)]);
          assert CountStatus([TextChunk(part.text.value)]) == 0 by {
            assert [TextChunk(part.text.value)][..0] == [];
          }
        }
      }
    }
  }

  // ---------------------------------------------------------------------
  // The agent

  /** A session table whose queues were all handed out below `next` and
      are pairwise distinct. */
  ghost predicate TableValid(sessions: map<string, Session>, next: nat) {
    && (forall u | u in sessions :: sessions[u].queue < next)
    && (forall u, v | u in sessions && v in sessions && u != v :: sessions[u].queue != sessions[v].queue)
  }

  lemma TableValidRemove(sessions: map<string, Session>, next: nat, user: string)
    requires TableValid(sessions, next)
    ensures TableValid(sessions - {user}, next)
  {
  }

  lemma TableValidAdd(sessions: map<string, Session>, next: nat, user: string, s: Session)
    requires TableValid(sessions, next) && user !in sessions && s.queue == next
    ensures TableValid(sessions[user := s], next + 1)
  {
  }

  class AudioAgent {
    /** The `logs/` directory: this agent writes `audio_log.json` and reads
        `camera_log.json`. */
    const files: LogDirectory
    const modelName: string
    var sessions: map<string, Session>
    var cameraContext: string
    /** Every call made on a live request queue, in order. */
    var queueCalls: seq<QueueCall>
    /** The number the next live request queue gets. */
    var nextQueue: nat

    /** Each user's queue is one of the queues handed out, and no two users
        share a queue. */
    ghost predicate Valid()
      reads this
    {
      TableValid(sessions, nextQueue)
    }

    constructor Init(files: LogDirectory, modelName: string)
      ensures this.files == files && this.modelName == modelName
      ensures sessions == map[] && cameraContext == NoCameraUpdates && queueCalls == [] && nextQueue == 0
      ensures Valid()
    {
      this.files := files;
      this.modelName := modelName;
      sessions := map[];
      cameraContext := NoCameraUpdates;
      queueCalls := [];
      nextQueue := 0;
    }

    /** `AudioAgent(project_id, location, model_name)`; `useVertexAi` is the
        `GOOGLE_GENAI_USE_VERTEXAI` variable (default `"False"`). The audio log
        is reset to `[]` and a missing camera log is created as `[]`. */
    static method Create(projectId: string, location: string, modelName: string,
                         useVertexAi: Option<string>, files: LogDirectory)
      returns (r: Result<AudioAgent, InitError>)
      modifies files
      ensures projectId == "" ==> r == Failure(ConfigError(ProjectIdRequired))
      ensures projectId != "" && location == "" ==> r == Failure(ConfigError(LocationRequired))
      ensures projectId != "" && location != "" && Lower(useVertexAi.GetOr("False")) != "true"
              ==> r == Failure(EnvironmentError(VertexAiRequired))
      ensures r.Failure? ==> files.camera == old(files.camera) && files.audio == old(files.audio)
      ensures projectId != "" && location != "" && Lower(useVertexAi.GetOr("False")) == "true" ==> r.Success?
      ensures r.Success? ==>
        && fresh(r.value) && r.value.files == files && r.value.Valid()
        && r.value.sessions == map[] && r.value.cameraContext == NoCameraUpdates && r.value.queueCalls == []
        && files.audio == ListFile([])
        && files.camera == (if old(files.camera).Missing? then ListFile([]) else old(files.camera))
    {
      if projectId == "" {
        return Failure(ConfigError(ProjectIdRequired));
      }
      if location == "" {
        return Failure(ConfigError(LocationRequired));
      }
      if Lower(useVertexAi.GetOr("False")) != "true" {
        return Failure(EnvironmentError(VertexAiRequired));
      }
      files.audio := ListFile([]);
      if files.camera.Missing? {
        files.camera := ListFile([]);
      }
      var agent := new AudioAgent.Init(files, modelName);
      return Success(agent);
    }

    /** `_log_transcription(speaker, text)` */
    method LogTranscription(speaker: string, text: string, timestamp: string)
      modifies files`audio
      ensures files.audio == AppendEntry(old(files.audio), TranscriptEntry(timestamp, speaker, text))
    {
      var current := ExistingEntries(files.audio);
      current := current + [TranscriptEntry(timestamp, speaker, text)];
      files.audio := ListFile(current);
    }

    /** `update_camera_context(context)` */
    method UpdateCameraContext(context: string)
      modifies this`cameraContext
      ensures cameraContext == context
    {
      cameraContext := context;
    }

    /** `refresh_camera_context_from_log(max_entries)` */
    method RefreshCameraContextFromLog(maxEntries: int)
      modifies this`cameraContext
      ensures cameraContext == RefreshedContext(files.camera, maxEntries, old(cameraContext))
    {
      var all := ExistingEntries(files.camera);
      if |all| == 0 {
        return;
      }
      var recent := all[SliceStart(|all|, maxEntries)..];
      assert recent == RecentEntries(all, maxEntries);
      var comments: seq<string> := [];
      var i := |recent|;
      // the comprehension, built from the back so that the result is
      // `CommentsOf(recent[i..])` at every step
      while i > 0
        invariant 0 <= i <= |recent|
        invariant CommentsOf(recent[i..]).Some? ==> comments == CommentsOf(recent[i..]).value
        invariant forall k :: i <= k < |recent| ==> recent[k].JObject?
        invariant cameraContext == old(cameraContext)
        decreases i
      {
        i := i - 1;
        if !recent[i].JObject? {
          // `log.get` raises on a non-object; the refresh is abandoned
          assert !AllObjects(recent);
          CommentsOfFails(recent);
          return;
        }
        assert recent[i..][1..] == recent[i + 1..];
        if CommentsOf(recent[i..]).Some? {
          CommentsOfCons(recent[i..]);
        }
        var c := EntryComment(recent[i]);
        if c.Some? {
          comments := [c.value] + comments;
        }
      }
      assert CommentsOf(recent) == Some(comments) by {
        assert recent[0..] == recent;
        CommentsOfFails(recent);
      }
      if |comments| > 0 {
        var joined := JoinSpace(comments);
        if joined != cameraContext {
          cameraContext := joined;
        }
      }
    }

    /** `start_adk_session(user_id, is_audio)`: an existing session for the
        user is stopped first, the context is refreshed (with the default
        window), and `created` is whether the runner and its session could
        be created. On failure the user has no session and the error
        propagates (`ok == false`). */
    method StartAdkSession(userId: string, isAudio: bool, created: bool) returns (ok: bool)
      requires Valid()
      modifies this`sessions, this`queueCalls, this`cameraContext, this`nextQueue
      ensures Valid()
      ensures ok == created
      ensures cameraContext == RefreshedContext(files.camera, DefaultMaxEntries, old(cameraContext))
      ensures queueCalls == old(queueCalls) + (if userId in old(sessions) then [Close(old(sessions)[userId].queue)] else [])
      ensures created ==> sessions == old(sessions)[userId := Session(old(nextQueue), isAudio, InitialMessage(cameraContext))]
                          && nextQueue == old(nextQueue) + 1
      ensures !created ==> sessions == old(sessions) - {userId} && nextQueue == old(nextQueue)
    {
      if userId in sessions {
        StopAdkSession(userId);
      }
      assert sessions == old(sessions) - {userId} && nextQueue == old(nextQueue);
      RefreshCameraContextFromLog(DefaultMaxEntries);
      if !created {
        // the user's entry, removed by the stop above, is not put back
        return false;
      }
      var queue := nextQueue;
      TableValidAdd(sessions, nextQueue, userId, Session(queue, isAudio, InitialMessage(cameraContext)));
      nextQueue := nextQueue + 1;
      sessions := sessions[userId := Session(queue, isAudio, InitialMessage(cameraContext))];
      return true;
    }

    /** `stop_adk_session(user_id)`: closes that user's queue and forgets the
        session; other users are untouched. */
    method StopAdkSession(userId: string)
      requires Valid()
      modifies this`sessions, this`queueCalls
      ensures Valid()
      ensures sessions == old(sessions) - {userId}
      ensures queueCalls == old(queueCalls) + (if userId in old(sessions) then [Close(old(sessions)[userId].queue)] else [])
      ensures userId in old(sessions) ==> forall u | u in sessions :: sessions[u].queue != old(sessions)[userId].queue
    {
      if userId in sessions {
        queueCalls := queueCalls + [Close(sessions[userId].queue)];
        TableValidRemove(sessions, nextQueue, userId);
        sessions := sessions - {userId};
      }
    }

    /** `client_to_agent_handler(user_id, client_msg)`; `decoded` is what
        decoding `data` as base64 gives. */
    method ClientToAgentHandler(userId: string, msg: ClientMessage, decoded: Result<Bytes, string>, timestamp: string)
      returns (reply: HandlerReply)
      modifies this`queueCalls, files`audio
      ensures var d := DispatchMessage(if userId in sessions then Some(sessions[userId]) else None, msg, decoded);
        && reply == d.reply
        && queueCalls == old(queueCalls) + (if d.call.Some? then [d.call.value] else [])
        && files.audio == (if d.userText.Some? then AppendEntry(old(files.audio), TranscriptEntry(timestamp, "user", d.userText.value))
                           else old(files.audio))
    {
      if userId !in sessions {
        return HandlerError(SessionNotFound);
      }
      var queue := sessions[userId].queue;
      var isAudio := sessions[userId].isAudio;
      if msg.mimeType.None? || msg.mimeType.value == "" || msg.data.None? {
        return HandlerError(InvalidMessage);
      }
      var mime, data := msg.mimeType.value, msg.data.value;
      var logText := "";
      if mime == TextPlain {
        logText := data;
        queueCalls := queueCalls + [SendContent(queue, data)];
      } else if StartsWith(mime, AudioPrefix) && isAudio {
        match decoded
        case Failure(e) =>
          return HandlerError(AudioErrorPrefix + e);
        case Success(bytes) =>
          queueCalls := queueCalls + [SendRealtime(queue, bytes, mime)];
      } else {
        return HandlerError(UnsupportedMime);
      }
      if logText != "" {
        LogTranscription("user", logText, timestamp);
      }
      return Sent;
    }

    /** `agent_to_client_sse_handler(user_id)`: one error frame for an
        unknown user; otherwise the session's events relayed to the end of
        the stream, agent turns logged as they end. */
    method AgentToClientSseHandler(userId: string, events: seq<Timed>) returns (frames: seq<SseMessage>)
      modifies files`audio
      ensures userId !in sessions ==> frames == [NotFound] && files.audio == old(files.audio)
      ensures userId in sessions ==>
        && frames == Relay(sessions[userId].isAudio, events).frames
        && files.audio == AppendAll(old(files.audio), Relay(sessions[userId].isAudio, events).logged)
    {
      if userId !in sessions {
        return [NotFound];
      }
      var isAudio := sessions[userId].isAudio;
      var textTurn := "";
      frames := [];
      ghost var logged: seq<Json> := [];
      for i := 0 to |events|
        invariant Relay(isAudio, events[..i]) == RelayState(frames, textTurn, logged)
        invariant files.audio == AppendAll(old(files.audio), logged)
      {
        assert events[..i + 1][..i] == events[..i];
        ghost var next := RelayStep(isAudio, RelayState(frames, textTurn, logged), events[i]);
        assert Relay(isAudio, events[..i + 1]) == next;
        var e := events[i].event;
        if e.turnComplete || e.interrupted {
          frames := frames + [TurnStatus(e.turnComplete, e.interrupted)];
          if textTurn != "" && !Contains(textTurn, SystemInfo) {
            AppendAllSnoc(old(files.audio), logged, TranscriptEntry(events[i].at, "agent", textTurn));
            LogTranscription("agent", textTurn, events[i].at);
            logged := logged + [TranscriptEntry(events[i].at, "agent", textTurn)];
          }
          textTurn := "";
          assert RelayState(frames, textTurn, logged) == next;
          continue;
        }
        if e.content.None? || |e.content.value.parts| == 0 {
          continue;
        }
        var part := e.content.value.parts[0];
        ghost var before := frames;
        if isAudio && part.inlineData.Some? && StartsWith(part.inlineData.value.mimeType, AudioPrefix) {
          if |part.inlineData.value.data| > 0 {
            frames := frames + [AudioChunk(part.inlineData.value.mimeType, part.inlineData.value.data)];
          }
        }
        assert frames == before + AudioFrames(isAudio, part);
        if part.text.Some? && part.text.value != "" {
          if Contains(part.text.value, SystemInfo) && e.content.value.role == "model" {
            assert RelayState(frames, textTurn, logged) == next;
            continue;
          }
          frames := frames + [TextChunk(part.text.value)];
          textTurn := textTurn + part.text.value;
        }
        assert RelayState(frames, textTurn, logged) == next;
      }
      assert events[..|events|] == events;
    }
  }
}
