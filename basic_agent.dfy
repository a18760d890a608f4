/** The first `MultimodalAgent`, `app/agent.py`: configuration checks, a
    chat session started on demand, and the assembly of a prompt from text,
    image, audio and video parts. */
module BasicAgent {
  import opened Wrappers
  import opened GenAi
  import opened Multimodal

  class MultimodalAgent {
    const projectId: string
    const location: string
    const modelName: string
    var chat: Option<ChatSession>

    /** The state `__init__` leaves behind once its checks have passed. */
    constructor Init(projectId: string, location: string, modelName: string)
      ensures this.projectId == projectId && this.location == location && this.modelName == modelName
      ensures chat.None?
    {
      this.projectId := projectId;
      this.location := location;
      this.modelName := modelName;
      chat := None;
    }

    /** `MultimodalAgent(project_id, location, model_name)`: the three
        settings are checked in order, then the SDK is initialised
        (`sdkReady` is whether `vertexai.init` and `GenerativeModel`
        succeed). */
    static method Create(projectId: string, location: string, modelName: string, sdkReady: bool)
      returns (r: Result<MultimodalAgent, InitError>)
      ensures MissingSetting(projectId, location, modelName).Some? ==>
        r == Failure(ConfigError(MissingSetting(projectId, location, modelName).value))
      ensures MissingSetting(projectId, location, modelName).None? ==> (r.Success? <==> sdkReady)
      ensures r.Failure? && sdkReady ==> r.error.ConfigError?
      ensures r.Success? ==>
        && fresh(r.value)
        && r.value.projectId == projectId && r.value.location == location && r.value.modelName == modelName
        && r.value.chat.None?
    {
      var missing := MissingSetting(projectId, location, modelName);
      if missing.Some? {
        return Failure(ConfigError(missing.value));
      }
      if !sdkReady {
        return Failure(SdkError);
      }
      var agent := new MultimodalAgent.Init(projectId, location, modelName);
      return Success(agent);
    }

    /** `start_chat`: replaces the chat with the session the model hands out
        and returns it. */
    method StartChat(session: ChatSession) returns (started: ChatSession)
      modifies this`chat
      ensures chat == Some(session) && started == session
    {
      chat := Some(session);
      return session;
    }

    /** `send_message`: starts a chat when there is none, refuses a call
        with nothing to send, assembles the parts with `append` and `extend`
        and returns `response.text`. `session` is what `start_chat` would be
        handed; `sent` is what reaches `chat.send_message`. */
    method SendMessage(text: string, images: seq<Part>, audio: seq<Part>, video: seq<Part>,
                       session: ChatSession, outcome: ModelOutcome)
      returns (r: Result<string, SendError>, sent: Option<seq<Part>>)
      modifies this`chat
      ensures chat == if old(chat).Some? then old(chat) else Some(session)
      ensures r == SendOutcome(text, images, audio, video, outcome)
      ensures sent.Some? <==> !NoContent(text, images, audio, video)
      ensures sent.Some? ==> sent.value == PromptParts(text, images, audio, video)
    {
      if chat.None? {
        var _ := StartChat(session);
      }
      if text == "" && images == [] && audio == [] && video == [] {
        return Failure(InvalidInput(NoInputProvided)), None;
      }
      var parts: seq<Part> := [];
      if text != "" {
        parts := parts + [TextPart(text)];
      }
      parts := parts + images;
      parts := parts + audio;
      parts := parts + video;
      sent := Some(parts);
      r := AccessorReply(outcome);
    }
  }
}
