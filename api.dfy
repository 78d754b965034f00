/**
 * Value types shared by the Copilot adapter: the canonical chat request and
 * response shapes (package api), the errors the adapter produces, and the
 * given results that stand for HTTP, the event-stream reader and JSON decoding.
 *
 * Text is `string`, one character per byte of wire text.
 */
module Api {

  /** The HTTP status both endpoints must answer with for a success. */
  const StatusOK := 200

  datatype Option<+T> = None | Some(value: T)

  datatype Result<+T> = Ok(value: T) | Err(error: Error)

  /** The errors the adapter returns or passes on. */
  datatype Error =
    /** api.NewUpstreamError: a non-200 status from the chat endpoint and its normalized message. */
    | UpstreamError(status: int, message: string)
    /** An error returned by I/O, the event reader or a decoder, passed on as it is. */
    | Cause(text: string)
    /** fmt.Errorf("<context>: %w", cause). */
    | Wrapped(context: string, cause: Error)
    /** The stored credential has an empty refresh token (client.go "no GitHub token found"). */
    | NoGitHubToken
    /** fmt.Errorf("copilot token request failed with status %d: %s", status, body). */
    | TokenStatus(status: int, body: string)

  /** One typed part of a message's content (what Message.GetContentParts yields). */
  datatype ContentPart = ContentPart(partType: string, text: string, imageUrl: string)

  /** api.Message. Roles are the wire strings ("system", "user", "assistant", "tool", ...). */
  datatype Message = Message(role: string, content: seq<ContentPart>, name: string, toolCallId: string)

  datatype Tool = Tool(name: string, description: string, parameters: string)

  /** The request the provider receives (provider.ChatCompletionRequest). */
  datatype CompletionRequest = CompletionRequest(
    model: string,
    messages: seq<Message>,
    tools: seq<Tool>,
    toolChoice: Option<string>,
    stream: bool,
    streamOptions: Option<bool>,
    temperature: Option<real>,
    topP: Option<real>,
    maxTokens: Option<int>,
    maxCompletionTokens: Option<int>,
    stop: seq<string>,
    presencePenalty: Option<real>,
    frequencyPenalty: Option<real>,
    responseFormat: Option<string>,
    parallelToolCalls: Option<bool>)

  /** The request body sent upstream (api.ChatCompletionRequest). */
  datatype ChatRequest = ChatRequest(
    model: string,
    messages: seq<Message>,
    tools: seq<Tool>,
    toolChoice: Option<string>,
    stream: bool,
    streamOptions: Option<bool>,
    temperature: Option<real>,
    topP: Option<real>,
    maxTokens: Option<int>,
    maxCompletionTokens: Option<int>,
    stop: seq<string>,
    presencePenalty: Option<real>,
    frequencyPenalty: Option<real>,
    responseFormat: Option<string>,
    parallelToolCalls: Option<bool>)

  datatype Choice = Choice(index: int, role: string, content: string, finishReason: string)

  datatype Usage = Usage(promptTokens: int, completionTokens: int, totalTokens: int)

  /** api.ChatCompletionChunk: one streaming unit. */
  datatype Chunk = Chunk(id: string, objectKind: string, created: int, model: string, choices: seq<Choice>, usage: Option<Usage>)

  /** api.ChatCompletionResponse: the single non-streaming unit. */
  datatype Response = Response(id: string, objectKind: string, created: int, model: string, choices: seq<Choice>, usage: Option<Usage>)

  /** What decoding an error body yields: not JSON, or the two message fields ("" when absent). */
  datatype ErrorShape = Undecodable | Decoded(errorMessage: string, message: string)

  /** The {token, expires_at} object the token endpoint returns; expiresAt in epoch seconds. */
  datatype TokenFields = TokenFields(token: string, expiresAt: int)

  /** json.Unmarshal for each target the adapter decodes into. */
  datatype Codec = Codec(
    chunk: string -> Result<Chunk>,
    response: string -> Result<Response>,
    errorBody: string -> ErrorShape,
    token: string -> Result<TokenFields>)

  /** One result of sse.Reader.ReadEvent: an event's data, io.EOF, or another read error. */
  datatype ReadResult = Event(data: string) | EndOfBody | ReadFailure(error: Error)

  /**
   * An upstream HTTP response: its status, what io.ReadAll of its body gives
   * (the bytes read and the read error, if any), and the results the event
   * reader returns over the same body, in order.
   */
  datatype HttpResponse = HttpResponse(status: int, body: string, readError: Option<Error>, events: seq<ReadResult>)

  /** A request as handed to the HTTP transport: its headers and its JSON body. */
  datatype HttpRequest = HttpRequest(headers: map<string, string>, body: ChatRequest)
}
