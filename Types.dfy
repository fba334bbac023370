/** The records of the chat synthesizer (src/types/index.ts): the OpenRouter
    request, message and stream-frame shapes, and the application's model
    groups, chat sessions, model responses and uploaded files. */
module Types {
  import opened Wrappers

  /** A JavaScript `Date`, kept opaque: the core only copies and compares it. */
  datatype Date = Date(millis: int)

  datatype Role = User | Assistant | System

  /** One item of a multimodal message body. */
  datatype ContentPart = TextPart(text: string) | ImageUrlPart(url: string)

  /** A message body: plain text, or an array of text and image items. */
  datatype MessageContent = Text(text: string) | Parts(parts: seq<ContentPart>)

  datatype OpenRouterMessage = OpenRouterMessage(role: Role, content: MessageContent)

  /** A chat-completion request; every optional property is an `Option`. */
  datatype OpenRouterRequest = OpenRouterRequest(
    model: string,
    messages: seq<OpenRouterMessage>,
    stream: Option<bool>,
    maxTokens: Option<int>,
    temperature: Option<real>,
    topP: Option<real>,
    topK: Option<int>,
    frequencyPenalty: Option<real>,
    presencePenalty: Option<real>,
    repetitionPenalty: Option<real>,
    seed: Option<int>,
    user: Option<string>)

  /** The partial message carried by one streamed choice. */
  datatype Delta = Delta(role: Option<string>, content: Option<string>)

  datatype StreamChoice = StreamChoice(index: int, delta: Delta, finishReason: Option<string>)

  /** One parsed server-sent frame of a streaming completion. */
  datatype StreamChunk = StreamChunk(
    id: string,
    object: string,
    created: int,
    model: string,
    choices: seq<StreamChoice>)

  /** A configured model; its free-form parameters are kept as text. */
  datatype AIModelConfig = AIModelConfig(
    id: string,
    modelName: string,
    displayName: string,
    parameters: map<string, string>)

  /** The merge settings. `mode` is a string, since a stored group can hold any
      value there; `intersectionThreshold` is the optional property. */
  datatype SynthesizerConfig = SynthesizerConfig(
    model: string,
    mode: string,
    intersectionThreshold: Option<int>)

  datatype AIModelGroup = AIModelGroup(
    id: string,
    title: string,
    models: seq<AIModelConfig>,
    synthesizer: SynthesizerConfig,
    createdAt: Date,
    updatedAt: Date)

  /** One model's answer in a synthesis round. */
  datatype ModelResponse = ModelResponse(
    modelId: string,
    modelName: string,
    content: string,
    isCompleted: bool,
    timestamp: Date)

  datatype ChatMessage = ChatMessage(
    id: string,
    role: Role,
    content: string,
    timestamp: Date,
    modelResponses: Option<seq<ModelResponse>>,
    synthesizedFrom: Option<seq<string>>)

  datatype ChatSession = ChatSession(
    id: string,
    title: string,
    modelGroupId: string,
    messages: seq<ChatMessage>,
    createdAt: Date,
    updatedAt: Date)

  /** An attachment; `mimeType` is the source's `type` property and `data` its
      base64 text. */
  datatype UploadedFile = UploadedFile(
    id: string,
    name: string,
    mimeType: string,
    size: int,
    data: string,
    url: Option<string>)
}
