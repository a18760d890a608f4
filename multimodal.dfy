/** What the three `MultimodalAgent` variants (`app/agent.py`,
    `streaming-test/app/agent.py` and `in_progress/streaming-test/app/agent.py`)
    have in common: the constructor's configuration checks, the messages they
    raise and report, the events their voice and video paths put on the
    caller's queue, and the prompt sent with a video change. */
module Multimodal {
  import opened Wrappers
  import opened Text
  import opened GenAi

  const ProjectIdRequired := "Google Cloud Project ID is required."
  const LocationRequired := "Google Cloud Location is required."
  const ModelNameRequired := "Model name is required."
  /** The `ValueError` of `send_message` when it is given nothing to send. */
  const NoInputProvided := "At least one input type (text, image, audio, video) must be provided."

  /** Status messages of `handle_voice_interaction`. */
  const AudioRecordingFailed := "Audio recording failed."
  const TranscriptionFailed := "Transcription failed."
  const NoSpeechDetected := "No speech detected."
  const ModelDidNotRespond := "Model did not respond."

  const ImageMimeType := "image/jpeg"
  const ChangePromptOpening := "A change was detected in the video feed: "
  const ChangePromptClosing := ". Concisely describe what you observe in this image related to the change."

  /** The constructor's checks, in order: the message of the `ValueError` it
      raises, or `None` when every setting is present. */
  function MissingSetting(projectId: string, location: string, modelName: string): (r: Option<string>)
    ensures r.None? <==> projectId != "" && location != "" && modelName != ""
    ensures r == Some(ProjectIdRequired) <==> projectId == ""
    ensures r == Some(LocationRequired) <==> projectId != "" && location == ""
    ensures r == Some(ModelNameRequired) <==> projectId != "" && location != "" && modelName == ""
  {
    if projectId == "" then Some(ProjectIdRequired)
    else if location == "" then Some(LocationRequired)
    else if modelName == "" then Some(ModelNameRequired)
    else None
  }

  /** The dictionaries the agents put on the UI's event queue. */
  datatype UiEvent =
    | Status(message: string)
    | Transcription(text: string)
    | ModelResponseAudioText(text: string)
    | VideoChangeComment(comment: string)

  /** The `queue.Queue` a caller hands in as `event_queue`. */
  class EventQueue {
    var items: seq<UiEvent>

    constructor()
      ensures items == []
    {
      items := [];
    }
  }

  /** `if event_queue: event_queue.put(e)`; a missing queue is `null`. */
  method Enqueue(queue: EventQueue?, e: UiEvent)
    modifies queue
    ensures queue != null ==> queue.items == old(queue.items) + [e]
  {
    if queue != null {
      queue.items := queue.items + [e];
    }
  }

  /** What the world supplies when a chat is started: the session
      `model.start_chat` hands out, and whether the camera opens should
      `start_chat` try to start the capture. */
  datatype ChatStart = ChatStart(session: ChatSession, cameraOpens: bool)

  /** Why `send_message` raised: its own `ValueError`, or the SDK's exception
      re-raised. */
  datatype SendError = InvalidInput(message: string) | ModelRaised

  /** What a voice interaction is handed by the world: `record_audio`,
      `transcribe_audio_bytes`, the model's reply to the transcript and
      `synthesize_text_to_audio_bytes`. */
  datatype VoiceIo = VoiceIo(recording: Option<Bytes>, transcript: Option<string>,
                             reply: ModelOutcome, synthesis: Option<Bytes>)

  /** The recording succeeded and speech was transcribed: the voice
      interaction goes on to the model. */
  predicate Heard(io: VoiceIo) {
    HasBytes(io.recording) && io.transcript.Some? && io.transcript.value != ""
  }

  /** What a voice interaction leaves behind: the events it puts on the
      queue, the audio it plays (always as mp3), and whether an exception
      escaped it. */
  datatype VoiceTrace = VoiceTrace(events: seq<UiEvent>, played: Option<Bytes>, raised: bool)

  /** `f"A change was detected in the video feed: {description}. Concisely ..."` */
  function ChangePrompt(description: string): (p: string)
    ensures StartsWith(p, ChangePromptOpening)
    ensures OccursAt(p, description, |ChangePromptOpening|)
    ensures |p| == |ChangePromptOpening| + |description| + |ChangePromptClosing|
    ensures p[|ChangePromptOpening| + |description|..] == ChangePromptClosing
  {
    ChangePromptOpening + description + ChangePromptClosing
  }

  /** Different change descriptions give different prompts. */
  lemma ChangePromptInjective(a: string, b: string)
    requires ChangePrompt(a) == ChangePrompt(b)
    ensures a == b
  {
    var p := ChangePrompt(a);
    assert |a| == |b|;
    assert a == p[|ChangePromptOpening|..|ChangePromptOpening| + |a|];
    assert b == p[|ChangePromptOpening|..|ChangePromptOpening| + |b|];
  }

  /** The message sent for a video change: the prompt, then the frame as a
      JPEG part. */
  function ChangeMessage(description: string, frame: Bytes): (parts: seq<Part>)
    ensures parts == PromptParts(ChangePrompt(description), [DataPart(frame, ImageMimeType)], [], [])
  {
    [TextPart(ChangePrompt(description)), DataPart(frame, ImageMimeType)]
  }

  /** `response.text` after `chat.send_message(...)`: the SDK's exception and
      the accessor's own failure both propagate. */
  function AccessorReply(outcome: ModelOutcome): (r: Result<string, SendError>)
    ensures r.Failure? ==> r.error == ModelRaised
    ensures r.Success? <==> outcome.Replied? && outcome.response.accessorText.Some?
    ensures r.Success? ==> r.value == outcome.response.accessorText.value
  {
    if outcome.ModelError? then Failure(ModelRaised)
    else if outcome.response.accessorText.None? then Failure(ModelRaised)
    else Success(outcome.response.accessorText.value)
  }

  /** What `send_message` of `app/agent.py` and `streaming-test/app/agent.py`
      returns or raises, given its inputs and what the model does. */
  function SendOutcome(text: string, images: seq<Part>, audio: seq<Part>, video: seq<Part>,
                       outcome: ModelOutcome): (r: Result<string, SendError>)
    ensures r == Failure(InvalidInput(NoInputProvided)) <==> PromptParts(text, images, audio, video) == []
    ensures r.Success? <==> && PromptParts(text, images, audio, video) != []
                            && outcome.Replied? && outcome.response.accessorText.Some?
    ensures r.Success? ==> r.value == outcome.response.accessorText.value
  {
    PromptEmptyIffNoContent(text, images, audio, video);
    if NoContent(text, images, audio, video) then Failure(InvalidInput(NoInputProvided))
    else AccessorReply(outcome)
  }
}
