/**
 * The Copilot API client of client.go: the cached Copilot token and its
 * refresh, the header choices of SendRequest, and the two heuristics over
 * the conversation (initiator and vision).
 *
 * The credential store lookup, the token exchange and the chat request's
 * HTTP reply are given results; the clock is the parameter `now`, in epoch
 * seconds.
 */
module CopilotClient {
  import opened Api

  /** A cached token is used only while it has more than this many seconds left. */
  const RefreshMargin := 60
  const VisionHeader := "Copilot-Vision-Request"

  /** CopilotToken: the short-lived API token and its expiry in epoch seconds. */
  datatype CopilotToken = CopilotToken(token: string, expiresAt: int)

  /** The part of the stored OAuth credentials the client reads: the GitHub token kept as refresh token. */
  datatype OAuthCredentials = OAuthCredentials(refreshToken: string)

  /** What the token endpoint does with one request: a transport error, or a status and the result of reading the body. */
  datatype TokenReply = TransportFailed(cause: Error) | Replied(status: int, body: Result<string>)

  /** getGitHubToken, given the store's answer. */
  function GetGitHubToken(creds: Result<OAuthCredentials>): (r: Result<string>)
    ensures creds.Err? ==> r == Err(Wrapped("failed to get credentials", creds.error))
    ensures creds.Ok? && creds.value.refreshToken == "" ==> r == Err(NoGitHubToken)
    ensures r.Ok? <==> creds.Ok? && creds.value.refreshToken != ""
    ensures r.Ok? ==> r.value == creds.value.refreshToken
  {
    match creds
    case Err(e) => Err(Wrapped("failed to get credentials", e))
    case Ok(c) => if c.refreshToken == "" then Err(NoGitHubToken) else Ok(c.refreshToken)
  }

  /** refreshCopilotToken: status, parse and expiry handling of the token endpoint's reply. */
  function RefreshCopilotToken(reply: TokenReply, codec: Codec): (r: Result<CopilotToken>)
    ensures r.Ok? <==>
      reply.Replied? && reply.body.Ok? && reply.status == StatusOK && codec.token(reply.body.value).Ok?
    ensures r.Ok? ==>
      var fields := codec.token(reply.body.value).value;
      r.value == CopilotToken(fields.token, fields.expiresAt)
    ensures reply.TransportFailed? ==> r == Err(Wrapped("failed to request Copilot token", reply.cause))
    ensures reply.Replied? && reply.body.Err? ==> r == Err(Wrapped("failed to read response", reply.body.error))
    ensures reply.Replied? && reply.body.Ok? && reply.status != StatusOK ==>
      r == Err(TokenStatus(reply.status, reply.body.value))
    ensures reply.Replied? && reply.body.Ok? && reply.status == StatusOK && codec.token(reply.body.value).Err? ==>
      r == Err(Wrapped("failed to parse token response", codec.token(reply.body.value).error))
  {
    match reply
    case TransportFailed(e) => Err(Wrapped("failed to request Copilot token", e))
    case Replied(status, body) =>
      if body.Err? then Err(Wrapped("failed to read response", body.error))
      else if status != StatusOK then Err(TokenStatus(status, body.value))
      else match codec.token(body.value)
        case Err(e) => Err(Wrapped("failed to parse token response", e))
        case Ok(fields) => Ok(CopilotToken(fields.token, fields.expiresAt))
  }

  /** The cache test of getCopilotToken: a token exists and now + 60s is before its expiry. */
  predicate Usable(cache: Option<CopilotToken>, now: int) {
    cache.Some? && now + RefreshMargin < cache.value.expiresAt
  }

  datatype TokenOutcome = TokenOutcome(cache: Option<CopilotToken>, result: Result<string>)

  /**
   * One call of getCopilotToken: the cache after the call and what it returns.
   * `exchange` is the token endpoint's reply to a request carrying a given GitHub token.
   */
  function TokenStep(cache: Option<CopilotToken>, now: int, creds: Result<OAuthCredentials>,
                     exchange: string -> TokenReply, codec: Codec): (r: TokenOutcome)
    ensures Usable(cache, now) ==> r == TokenOutcome(cache, Ok(cache.value.token))
    ensures r.result.Err? ==> r.cache == cache
    ensures r.result.Ok? ==> r.cache.Some? && r.cache.value.token == r.result.value
    ensures r.cache != cache ==> r.result.Ok? && !Usable(cache, now)
  {
    if Usable(cache, now) then TokenOutcome(cache, Ok(cache.value.token))
    else match GetGitHubToken(creds)
      case Err(e) => TokenOutcome(cache, Err(e))
      case Ok(githubToken) =>
        match RefreshCopilotToken(exchange(githubToken), codec)
        case Err(e) => TokenOutcome(cache, Err(e))
        case Ok(token) => TokenOutcome(Some(token), Ok(token.token))
  }

  /** A usable cached token is returned as it is, whatever the store and the exchange would answer. */
  lemma CachedTokenReused(cache: Option<CopilotToken>, now: int, creds: Result<OAuthCredentials>,
                          exchange: string -> TokenReply, codec: Codec,
                          creds': Result<OAuthCredentials>, exchange': string -> TokenReply, codec': Codec)
    requires Usable(cache, now)
    ensures TokenStep(cache, now, creds, exchange, codec) == TokenOutcome(cache, Ok(cache.value.token))
    ensures TokenStep(cache, now, creds, exchange, codec) == TokenStep(cache, now, creds', exchange', codec')
  {
  }

  /** A failed store lookup or an empty stored token is an error and leaves the cache as it was. */
  lemma CredentialFailureKeepsCache(cache: Option<CopilotToken>, now: int, creds: Result<OAuthCredentials>,
                                    exchange: string -> TokenReply, codec: Codec)
    requires !Usable(cache, now)
    requires creds.Err? || creds.value.refreshToken == ""
    ensures var o := TokenStep(cache, now, creds, exchange, codec);
      o.cache == cache && o.result.Err? &&
      o.result.error == (if creds.Err? then Wrapped("failed to get credentials", creds.error) else NoGitHubToken)
  {
  }

  /** A failed exchange (transport, read, non-200 status or unparsable body) is an error and leaves the cache as it was. */
  lemma ExchangeFailureKeepsCache(cache: Option<CopilotToken>, now: int, creds: Result<OAuthCredentials>,
                                  exchange: string -> TokenReply, codec: Codec)
    requires !Usable(cache, now)
    requires creds.Ok? && creds.value.refreshToken != ""
    requires RefreshCopilotToken(exchange(creds.value.refreshToken), codec).Err?
    ensures var o := TokenStep(cache, now, creds, exchange, codec);
      o.cache == cache && o.result == Err(RefreshCopilotToken(exchange(creds.value.refreshToken), codec).error)
  {
  }

  /** A successful exchange replaces the cache with the new token and its expiry, and returns the new token. */
  lemma SuccessfulRefreshCached(cache: Option<CopilotToken>, now: int, creds: Result<OAuthCredentials>,
                                exchange: string -> TokenReply, codec: Codec)
    requires !Usable(cache, now)
    requires creds.Ok? && creds.value.refreshToken != ""
    requires exchange(creds.value.refreshToken).Replied?
    requires exchange(creds.value.refreshToken).status == StatusOK
    requires exchange(creds.value.refreshToken).body.Ok?
    requires codec.token(exchange(creds.value.refreshToken).body.value).Ok?
    ensures var fields := codec.token(exchange(creds.value.refreshToken).body.value).value;
      TokenStep(cache, now, creds, exchange, codec) ==
        TokenOutcome(Some(CopilotToken(fields.token, fields.expiresAt)), Ok(fields.token))
  {
  }

  /** The cache changes only on a successful refresh, and then holds exactly the token returned. */
  lemma CacheWrittenOnlyOnSuccess(cache: Option<CopilotToken>, now: int, creds: Result<OAuthCredentials>,
                                  exchange: string -> TokenReply, codec: Codec)
    ensures var o := TokenStep(cache, now, creds, exchange, codec);
      o.cache == cache || (!Usable(cache, now) && o.result.Ok? && o.cache == Some(CopilotToken(o.result.value, o.cache.value.expiresAt)))
    ensures var o := TokenStep(cache, now, creds, exchange, codec);
      o.result.Ok? && o.cache.Some? ==> o.result.value == o.cache.value.token
  {
  }

  /** Right after a refresh whose token outlives now + 60s, a call at the same time reuses it and refreshes nothing. */
  lemma SecondCallReusesRefresh(cache: Option<CopilotToken>, now: int, creds: Result<OAuthCredentials>,
                                exchange: string -> TokenReply, codec: Codec,
                                creds': Result<OAuthCredentials>, exchange': string -> TokenReply, codec': Codec)
    requires TokenStep(cache, now, creds, exchange, codec).result.Ok?
    requires Usable(TokenStep(cache, now, creds, exchange, codec).cache, now)
    ensures var o := TokenStep(cache, now, creds, exchange, codec);
      TokenStep(o.cache, now, creds', exchange', codec') == o
  {
  }

  /**
   * The refresh path does not re-check the new token's expiry: a token the
   * endpoint reports as already expiring is cached and returned.
   */
  lemma RefreshedTokenNotRechecked(now: int)
    ensures var codec := Codec(_ => Err(Cause("")), _ => Err(Cause("")), _ => Undecodable,
                               _ => Ok(TokenFields("t", now)));
      var o := TokenStep(None, now, Ok(OAuthCredentials("g")), _ => Replied(StatusOK, Ok("{}")), codec);
      o == TokenOutcome(Some(CopilotToken("t", now)), Ok("t")) && !Usable(o.cache, now)
  {
  }

  // ----- request heuristics -----

  /** Roles that make a request a follow-up turn. */
  predicate IsFollowUpRole(role: string) {
    role == "assistant" || role == "tool"
  }

  /** getInitiator: "agent" once the conversation has an assistant or tool message, else "user". */
  function GetInitiator(messages: seq<Message>): (r: string)
    ensures r == "agent" || r == "user"
    ensures r == "agent" <==> exists i :: 0 <= i < |messages| && IsFollowUpRole(messages[i].role)
    decreases |messages|
  {
    if messages == [] then "user"
    else if IsFollowUpRole(messages[0].role) then "agent"
    else
      var r := GetInitiator(messages[1..]);
      assert forall i :: 1 <= i < |messages| ==> messages[i] == messages[1..][i - 1];
      r
  }

  predicate IsImagePart(part: ContentPart) {
    part.partType == "image_url" || part.partType == "image"
  }

  function HasImagePart(parts: seq<ContentPart>): (b: bool)
    ensures b <==> exists j :: 0 <= j < |parts| && IsImagePart(parts[j])
    decreases |parts|
  {
    if parts == [] then false
    else if IsImagePart(parts[0]) then true
    else
      var b := HasImagePart(parts[1..]);
      assert forall j :: 1 <= j < |parts| ==> parts[j] == parts[1..][j - 1];
      b
  }

  /** hasImageContent: some content part of some message is an image. */
  function HasImageContent(messages: seq<Message>): (b: bool)
    ensures b <==> exists i, j :: 0 <= i < |messages| && 0 <= j < |messages[i].content| && IsImagePart(messages[i].content[j])
    decreases |messages|
  {
    if messages == [] then false
    else if HasImagePart(messages[0].content) then true
    else
      var b := HasImageContent(messages[1..]);
      assert forall i :: 1 <= i < |messages| ==> messages[i] == messages[1..][i - 1];
      b
  }

  /** The header names SendRequest always sets, among those this model covers. */
  const BaseHeaderNames: set<string> :=
    {"Authorization", "Content-Type", "Accept", "X-Request-Id", "X-Initiator", "Openai-Intent"}

  /** The headers SendRequest sets on a chat request, as it sets them. */
  ghost predicate HeadersFor(h: map<string, string>, req: ChatRequest, token: string, requestId: string) {
    && h.Keys == BaseHeaderNames + (if HasImageContent(req.messages) then {VisionHeader} else {})
    && h["Authorization"] == "Bearer " + token
    && h["Content-Type"] == "application/json"
    && h["Accept"] == (if req.stream then "text/event-stream" else "application/json")
    && h["X-Request-Id"] == requestId
    && h["X-Initiator"] == GetInitiator(req.messages)
    && h["Openai-Intent"] == "conversation-panel"
    && ((VisionHeader in h) <==> HasImageContent(req.messages))
    && (VisionHeader in h ==> h[VisionHeader] == "true")
  }

  /** The Header.Set calls of SendRequest; `requestId` stands for the fresh UUID. */
  method BuildHeaders(req: ChatRequest, token: string, requestId: string) returns (h: map<string, string>)
    ensures HeadersFor(h, req, token, requestId)
    ensures h["Accept"] == "text/event-stream" <==> req.stream
    ensures (VisionHeader in h) <==> HasImageContent(req.messages)
  {
    h := map[];
    h := h["Authorization" := "Bearer " + token];
    h := h["Content-Type" := "application/json"];
    if req.stream {
      h := h["Accept" := "text/event-stream"];
    } else {
      h := h["Accept" := "application/json"];
    }
    h := h["X-Request-Id" := requestId];
    h := h["X-Initiator" := GetInitiator(req.messages)];
    h := h["Openai-Intent" := "conversation-panel"];
    if HasImageContent(req.messages) {
      h := h[VisionHeader := "true"];
    }
  }

  // ----- the client object -----

  /** Client: the Copilot API client with its cached token. */
  class Client {
    var copilotToken: Option<CopilotToken>

    /** NewClient: no token cached. */
    constructor ()
      ensures copilotToken == None
    {
      copilotToken := None;
    }

    /** getCopilotToken: the cached token while usable, else a refreshed one, cached only on success. */
    method GetCopilotToken(now: int, creds: Result<OAuthCredentials>, exchange: string -> TokenReply, codec: Codec)
      returns (r: Result<string>)
      modifies this`copilotToken
      ensures TokenOutcome(copilotToken, r) == TokenStep(old(copilotToken), now, creds, exchange, codec)
    {
      // read-locked fast path
      if Usable(copilotToken, now) {
        return Ok(copilotToken.value.token);
      }
      // write-locked: the same test again before any work; with a single
      // sequential caller nothing can have refreshed the cache in between
      if Usable(copilotToken, now) {
        assert false;
      }
      var githubToken := GetGitHubToken(creds);
      if githubToken.Err? {
        return Err(githubToken.error);
      }
      var token := RefreshCopilotToken(exchange(githubToken.value), codec);
      if token.Err? {
        return Err(token.error);
      }
      copilotToken := Some(token.value);
      return Ok(token.value.token);
    }

    /**
     * SendRequest. `reply` is what the HTTP transport returns; `sent` is the
     * request handed to it, or None when no request was sent.
     */
    method SendRequest(now: int, chatReq: ChatRequest, creds: Result<OAuthCredentials>,
                       exchange: string -> TokenReply, codec: Codec, requestId: string,
                       reply: Result<HttpResponse>)
      returns (r: Result<HttpResponse>, sent: Option<HttpRequest>)
      modifies this`copilotToken
      ensures var o := TokenStep(old(copilotToken), now, creds, exchange, codec);
        && copilotToken == o.cache
        && (o.result.Err? ==> r == Err(o.result.error) && sent == None)
        && (o.result.Ok? ==>
              && sent.Some? && sent.value.body == chatReq
              && HeadersFor(sent.value.headers, chatReq, o.result.value, requestId)
              && r == if reply.Err? then Err(Wrapped("failed to send request", reply.error)) else reply)
    {
      var token := GetCopilotToken(now, creds, exchange, codec);
      if token.Err? {
        return Err(token.error), None;
      }
      var headers := BuildHeaders(chatReq, token.value, requestId);
      sent := Some(HttpRequest(headers, chatReq));
      if reply.Err? {
        return Err(Wrapped("failed to send request", reply.error)), sent;
      }
      r := reply;
    }
  }
}
