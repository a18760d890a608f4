/** Stand-ins for the Vertex AI SDK objects the agents handle, and the prompt
    assembly the three `MultimodalAgent` variants share. The SDK itself
    (model runtime, chat sessions, network) is not modelled: what a call
    returns is an input to the model. */
module GenAi {
  import opened Wrappers

  type Bytes = seq<bv8>

  /** `Part.from_text(text)` or `Part.from_data(data, mime_type=...)`. */
  datatype Part = TextPart(text: string) | DataPart(data: Bytes, mimeType: string)

  /** Python truthiness of an optional byte string: present and not `b""`. */
  predicate HasBytes(b: Option<Bytes>) {
    b.Some? && |b.value| > 0
  }

  /** A chat session handed out by `GenerativeModel.start_chat`. */
  datatype ChatSession = ChatSession(id: nat)

  /** The parts of a model response the agents inspect:
      `response.candidates[0].content.parts[0].text`. `accessorText` is what
      the SDK's `response.text` accessor yields (`None` when it raises).
      A part's `text` is `None` when the part carries no text (an image or
      audio part); the `or ""` of the guarded extraction turns that into
      `""`, exactly as it does an empty text. */
  datatype ResponsePart = ResponsePart(text: Option<string>)
  datatype Content = Content(parts: seq<ResponsePart>)
  datatype Candidate = Candidate(content: Option<Content>)
  datatype Response = Response(candidates: seq<Candidate>, accessorText: Option<string>)

  /** The outcome of `chat.send_message(...)`: an exception or a response. */
  datatype ModelOutcome = ModelError | Replied(response: Response)

  /** Why an agent constructor raised: a `ValueError` or `EnvironmentError`
      with its message, or an exception from the SDK. */
  datatype InitError = ConfigError(message: string) | EnvironmentError(message: string) | SdkError

  /** The guarded extraction
      `response.candidates[0].content.parts[0].text or ""`. */
  function FirstPartText(r: Response): (text: string)
    ensures text != "" ==>
      && |r.candidates| > 0 && r.candidates[0].content.Some?
      && |r.candidates[0].content.value.parts| > 0
      && r.candidates[0].content.value.parts[0].text == Some(text)
    ensures (&& |r.candidates| > 0 && r.candidates[0].content.Some?
             && |r.candidates[0].content.value.parts| > 0
             && r.candidates[0].content.value.parts[0].text.Some?)
            ==> text == r.candidates[0].content.value.parts[0].text.value
  {
    if |r.candidates| > 0 && r.candidates[0].content.Some? && |r.candidates[0].content.value.parts| > 0 then
      r.candidates[0].content.value.parts[0].text.GetOr("")
    else ""
  }

  /** `not text_prompt and not image_parts and not audio_parts and not video_parts`.
      A missing argument and an empty one are the same here: `text == ""`
      stands for `None` as well as for the empty string. */
  predicate NoContent(text: string, images: seq<Part>, audio: seq<Part>, video: seq<Part>) {
    text == "" && images == [] && audio == [] && video == []
  }

  /** `prompt_parts` as `send_message` builds it: an optional text part,
      then `extend`s with the image, audio and video parts. */
  function PromptParts(text: string, images: seq<Part>, audio: seq<Part>, video: seq<Part>): (parts: seq<Part>)
  {
    (if text != "" then [TextPart(text)] else []) + images + audio + video
  }

  /** The order of the assembled prompt: the text part first when there is
      text, then the images, the audio and the video, nothing else. */
  lemma PromptPartsOrder(text: string, images: seq<Part>, audio: seq<Part>, video: seq<Part>)
    ensures var parts := PromptParts(text, images, audio, video);
      var t := if text != "" then 1 else 0;
      && |parts| == t + |images| + |audio| + |video|
      && (text != "" ==> parts[0] == TextPart(text))
      && parts[t..t + |images|] == images
      && parts[t + |images|..t + |images| + |audio|] == audio
      && parts[t + |images| + |audio|..] == video
  {
    var parts := PromptParts(text, images, audio, video);
    var t := if text != "" then 1 else 0;
    var head: seq<Part> := if text != "" then [TextPart(text)] else [];
    assert parts == head + images + audio + video;
    assert parts[t..t + |images|] == images;
  }

  /** The assembled prompt is empty exactly when `send_message` rejects the
      call. */
  lemma PromptEmptyIffNoContent(text: string, images: seq<Part>, audio: seq<Part>, video: seq<Part>)
    ensures PromptParts(text, images, audio, video) == [] <==> NoContent(text, images, audio, video)
  {
    if PromptParts(text, images, audio, video) == [] {
      assert |PromptParts(text, images, audio, video)| == 0;
    }
  }
}
