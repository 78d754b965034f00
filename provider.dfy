/**
 * The Copilot provider of provider.go: the system-to-assistant role rewrite,
 * the conversion of environment-variable docs, and ChatCompletion, which
 * builds the wire request, sends it through the client and wraps the reply
 * in a stream.
 */
module CopilotProvider {
  import opened Api
  import opened CopilotClient
  import opened CopilotStream

  /** copilot.EnvVarDoc. */
  datatype EnvVarDoc = EnvVarDoc(name: string, description: string, defaultValue: string)

  /** provider.EnvVarDoc. */
  datatype ProviderEnvVarDoc = ProviderEnvVarDoc(name: string, description: string, defaultValue: string)

  /** convertEnvVarDocs: the same docs, element by element, in the provider package's type. */
  method ConvertEnvVarDocs(docs: seq<EnvVarDoc>) returns (result: seq<ProviderEnvVarDoc>)
    ensures |result| == |docs|
    ensures forall i :: 0 <= i < |docs| ==>
      && result[i].name == docs[i].name
      && result[i].description == docs[i].description
      && result[i].defaultValue == docs[i].defaultValue
  {
    var out := new ProviderEnvVarDoc[|docs|];
    for i := 0 to |docs|
      invariant forall j :: 0 <= j < i ==>
        out[j] == ProviderEnvVarDoc(docs[j].name, docs[j].description, docs[j].defaultValue)
    {
      out[i] := ProviderEnvVarDoc(docs[i].name, docs[i].description, docs[i].defaultValue);
    }
    result := out[..];
  }

  /** `result` is `messages` with every system message turned into an assistant message and nothing else changed. */
  ghost predicate SystemRewritten(messages: seq<Message>, result: seq<Message>) {
    && |result| == |messages|
    && (forall i :: 0 <= i < |messages| && messages[i].role == "system" ==> result[i] == messages[i].(role := "assistant"))
    && (forall i :: 0 <= i < |messages| && messages[i].role != "system" ==> result[i] == messages[i])
  }

  /** transformMessages: the Copilot compatibility rewrite of system messages. */
  method TransformMessages(messages: seq<Message>) returns (result: seq<Message>)
    ensures SystemRewritten(messages, result)
    ensures forall i :: 0 <= i < |result| ==> result[i].role != "system"
  {
    var out := new Message[|messages|];
    for i := 0 to |messages|
      invariant forall j :: 0 <= j < i && messages[j].role == "system" ==> out[j] == messages[j].(role := "assistant")
      invariant forall j :: 0 <= j < i && messages[j].role != "system" ==> out[j] == messages[j]
    {
      out[i] := messages[i];
      if messages[i].role == "system" {
        out[i] := out[i].(role := "assistant");
      }
    }
    result := out[..];
  }

  /** Rewriting an already rewritten conversation changes nothing. */
  lemma RewriteIdempotent(messages: seq<Message>, once: seq<Message>, twice: seq<Message>)
    requires SystemRewritten(messages, once) && SystemRewritten(once, twice)
    ensures twice == once
  {
    assert forall i :: 0 <= i < |once| ==> once[i].role != "system";
  }

  /** Roles after which the rewritten conversation counts as a follow-up. */
  predicate RewritesToFollowUp(role: string) {
    role == "system" || role == "assistant" || role == "tool"
  }

  /**
   * Because the rewrite happens before the headers are computed, a system
   * message makes the initiator "agent" just as an assistant or tool message does.
   */
  lemma InitiatorAfterRewrite(messages: seq<Message>, result: seq<Message>)
    requires SystemRewritten(messages, result)
    ensures GetInitiator(result) == "agent" <==>
      exists i :: 0 <= i < |messages| && RewritesToFollowUp(messages[i].role)
  {
    if exists i :: 0 <= i < |messages| && RewritesToFollowUp(messages[i].role) {
      var i :| 0 <= i < |messages| && RewritesToFollowUp(messages[i].role);
      assert IsFollowUpRole(result[i].role);
    }
    if GetInitiator(result) == "agent" {
      var i :| 0 <= i < |result| && IsFollowUpRole(result[i].role);
      assert RewritesToFollowUp(messages[i].role);
    }
  }

  /** The rewrite leaves every content part in place, so the vision flag is that of the original conversation. */
  lemma VisionAfterRewrite(messages: seq<Message>, result: seq<Message>)
    requires SystemRewritten(messages, result)
    ensures HasImageContent(result) == HasImageContent(messages)
  {
    assert forall i :: 0 <= i < |messages| ==> result[i].content == messages[i].content;
    if HasImageContent(messages) {
      var i, j :| 0 <= i < |messages| && 0 <= j < |messages[i].content| && IsImagePart(messages[i].content[j]);
      assert IsImagePart(result[i].content[j]);
    }
    if HasImageContent(result) {
      var i, j :| 0 <= i < |result| && 0 <= j < |result[i].content| && IsImagePart(result[i].content[j]);
      assert IsImagePart(messages[i].content[j]);
    }
  }

  /** The headers of a request whose messages are the rewrite of `messages`, in terms of the original conversation. */
  lemma RewrittenHeaders(messages: seq<Message>, w: ChatRequest, h: map<string, string>, token: string, requestId: string)
    requires SystemRewritten(messages, w.messages) && HeadersFor(h, w, token, requestId)
    ensures h["X-Initiator"] == "agent" <==> exists i :: 0 <= i < |messages| && RewritesToFollowUp(messages[i].role)
    ensures (VisionHeader in h) <==> HasImageContent(messages)
  {
    assert h["X-Initiator"] == GetInitiator(w.messages);
    InitiatorAfterRewrite(messages, w.messages);
    VisionAfterRewrite(messages, w.messages);
  }

  /** Every field of the wire request except the messages is the provider request's own. */
  ghost predicate CopiedFrom(w: ChatRequest, req: CompletionRequest) {
    && w.model == req.model
    && w.tools == req.tools
    && w.toolChoice == req.toolChoice
    && w.stream == req.stream
    && w.streamOptions == req.streamOptions
    && w.temperature == req.temperature
    && w.topP == req.topP
    && w.maxTokens == req.maxTokens
    && w.maxCompletionTokens == req.maxCompletionTokens
    && w.stop == req.stop
    && w.presencePenalty == req.presencePenalty
    && w.frequencyPenalty == req.frequencyPenalty
    && w.responseFormat == req.responseFormat
    && w.parallelToolCalls == req.parallelToolCalls
  }

  /** Provider: the Copilot provider over one client. */
  class Provider {
    const client: Client

    constructor (client: Client)
      ensures this.client == client
    {
      this.client := client;
    }

    /**
     * ChatCompletion. The inputs after `req` are handed to the client's
     * SendRequest; `sent` is the request handed to the transport, if any.
     */
    method ChatCompletion(now: int, req: CompletionRequest, creds: Result<OAuthCredentials>,
                          exchange: string -> TokenReply, codec: Codec, requestId: string,
                          reply: Result<HttpResponse>)
      returns (r: Result<Stream>, sent: Option<HttpRequest>)
      modifies client`copilotToken
      ensures var o := TokenStep(old(client.copilotToken), now, creds, exchange, codec);
        && client.copilotToken == o.cache
        && (o.result.Err? ==> r.Err? && r.error == o.result.error && sent == None)
        && (o.result.Ok? ==>
              && sent.Some?
              && CopiedFrom(sent.value.body, req)
              && SystemRewritten(req.messages, sent.value.body.messages)
              && HeadersFor(sent.value.headers, sent.value.body, o.result.value, requestId)
              && (sent.value.headers["X-Initiator"] == "agent" <==>
                    exists i :: 0 <= i < |req.messages| && RewritesToFollowUp(req.messages[i].role))
              && ((VisionHeader in sent.value.headers) <==> HasImageContent(req.messages))
              && (reply.Err? ==> r.Err? && r.error == Wrapped("failed to send request", reply.error))
              && (reply.Ok? ==>
                    && r.Ok? && fresh(r.value)
                    && r.value.Source() == StreamSource(reply.value, req.stream, codec)
                    && r.value.State() == Initial(r.value.Source())
                    && r.value.Valid()))
    {
      ghost var o := TokenStep(client.copilotToken, now, creds, exchange, codec);
      var messages := TransformMessages(req.messages);
      var chatReq := ChatRequest(
        model := req.model,
        messages := messages,
        tools := req.tools,
        toolChoice := req.toolChoice,
        stream := req.stream,
        streamOptions := req.streamOptions,
        temperature := req.temperature,
        topP := req.topP,
        maxTokens := req.maxTokens,
        maxCompletionTokens := req.maxCompletionTokens,
        stop := req.stop,
        presencePenalty := req.presencePenalty,
        frequencyPenalty := req.frequencyPenalty,
        responseFormat := req.responseFormat,
        parallelToolCalls := req.parallelToolCalls);
      var resp;
      resp, sent := client.SendRequest(now, chatReq, creds, exchange, codec, requestId, reply);
      if o.result.Ok? {
        RewrittenHeaders(req.messages, sent.value.body, sent.value.headers, o.result.value, requestId);
      }
      if resp.Err? {
        return Err(resp.error), sent;
      }
      var stream := new Stream(resp.value, req.stream, codec);
      r := Ok(stream);
    }
  }
}
