# Copilot provider adapter, modelled in Dafny

This project models the GitHub Copilot adapter of a chat-completion gateway.
The gateway speaks the OpenAI-style chat-completion protocol to its callers.
The adapter covers four pieces:

- **Stream adapter** (`CopilotStream`): a single-consumer pull cursor over one
  upstream response. The pure function `Step` is one call of `Next` on an
  explicit state (`pending`, `done`, `statusChecked`, `response`, `err`).
  `Run` is a sequence of calls. The class `Stream` has the source's fields,
  and its `Next` is proved to do exactly what `Step` says;
  `ReadNonStreaming` is proved against the function `NonStreamingResult`. Streaming and buffered responses, the normalization of
  `object`/`created`, and skip-on-malformed events are stated as lemmas about
  `Step` and `Run`.
- **Error normalizer** (`UpstreamErrors`): `parseUpstreamError` and
  `enhanceErrorMessage`.
- **Credential broker** (`CopilotClient`): the cached Copilot token. The class
  `Client` has the one field `copilotToken`. `GetCopilotToken` is proved
  against the function `TokenStep`, and the lemmas about `TokenStep` state the
  cache rules. The module also has the `SendRequest` header choices and the
  initiator and vision heuristics.
- **Provider** (`CopilotProvider`): the system-to-assistant role rewrite, the
  env-var doc conversion, and `ChatCompletion`, which copies the request,
  sends it and wraps the reply in a `Stream`.

`Api` holds the shared value types.

Modelling choices:
- Text is `string`, with one character per byte of wire text. So the 500-byte
  cut of an error body is a cut at 500 characters.
- JSON decoding is a given total function per target type (`Api.Codec`):
  chunk, response, error body and token reply.
- The error-body decode result is `Undecodable | Decoded(errorMessage, message)`.
  An empty string stands for an absent field, as Go's zero values do.
- The event reader is the sequence of its results:
  `Event(data) | EndOfBody | ReadFailure(e)`. A reader whose results are used
  up reports end of body.
- The clock is a parameter `now`, in epoch seconds.
- The credential store's answer, the token endpoint's reply (a function of the
  GitHub token sent) and the chat endpoint's reply are given values.
  `SendRequest` and `ChatCompletion` also return the request handed to the
  transport (`sent`), so that its headers and body can be stated.

Notes on the code's behaviour:
- Roles and content-part types are wire strings, compared case-sensitively.
- The refresh path caches and returns the new token without checking its
  expiry (client.go:81-87). `CopilotClient.RefreshedTokenNotRechecked` shows
  such a token that is already inside the 60-second margin. Only the cached
  path returns a token known to have more than 60 seconds left.
- The error body is cut at 500 bytes (stream.go:167-168).

## Model

| member | source | states |
|---|---|---|
| `UpstreamErrors.EnhanceErrorMessage` | internal/provider/copilot/stream.go:181-190 | the hint is appended exactly when the lower-cased message contains "model" and one of "not supported" / "not available"; otherwise the message is returned unchanged |
| `UpstreamErrors.ToLower` | internal/provider/copilot/stream.go:182 | the lowered message has the same length and no ASCII capital; each capital moves 32 code points up, to its small letter; every other character is kept |
| `UpstreamErrors.Contains` | internal/provider/copilot/stream.go:185-186 | the substring test used by the hint check holds iff the pattern occurs at some index |
| `UpstreamErrors.ParseUpstreamError` | internal/provider/copilot/stream.go:148-178 | a non-empty nested error.message wins over the top-level message; with neither, the body is used, cut to 500 bytes plus "..." when longer; with no decoded message, an empty body gives exactly "unknown error" with no hint; the message is never empty |
| `UpstreamErrors.EnhanceExtends` | internal/provider/copilot/stream.go:185-189 | the result is the message or the message plus the hint, and always starts with the message |
| `UpstreamErrors.HintIgnoresCase` | internal/provider/copilot/stream.go:182-186 | two messages with the same lower-case form either both get the hint or neither does |
| `UpstreamErrors.CaseVariantsHintedAlike` | internal/provider/copilot/stream.go:182-186 | two messages of the same length that match character by character up to ASCII letter case either both get the hint or neither does |
| `UpstreamErrors.LongBodyTruncated` | internal/provider/copilot/stream.go:165-173 | a body longer than 500 bytes with no usable message yields a message that starts with exactly its first 500 bytes and "..." |
| `UpstreamErrors.FileNotAvailableUnchanged` | internal/provider/copilot/stream.go:183-189 | "file not available" has no "model" and gets no hint |
| `UpstreamErrors.UnavailableModelHinted` | internal/provider/copilot/stream.go:182-187 | the mixed-case message "Model NOT available" gets the hint |
| `CopilotStream.NormalizeChunk` | internal/provider/copilot/stream.go:128-135 | the object kind is never empty ("chat.completion.chunk" if it was), created is now if it was 0, set values are kept and no other field changes |
| `CopilotStream.NormalizeResponse` | internal/provider/copilot/stream.go:138-145 | the same for the response, with "chat.completion" |
| `CopilotStream.NormalizeIdempotent` | internal/provider/copilot/stream.go:128-145 | with a non-zero clock, normalizing twice equals normalizing once |
| `CopilotStream.FirstStop` | internal/provider/copilot/stream.go:73-82 | the index of the first reader result that is not an empty or undecodable event; everything before it is skippable |
| `CopilotStream.NextEvent` | internal/provider/copilot/stream.go:63-86 | the streaming loop stops at the first result that is not skipped: a decodable event yields its chunk, EOF ends cleanly, another read error ends with that error; the reader has consumed exactly the results up to it |
| `CopilotStream.NonStreamingResult` | internal/provider/copilot/stream.go:91-107 | the buffered read succeeds iff the body reads and decodes, and then gives the normalized response; a read error, or else the decoder's error, is returned as is |
| `CopilotStream.StatusError` | internal/provider/copilot/stream.go:50-51 | a non-200 response becomes an upstream error that carries the response's status and a non-empty message |
| `CopilotStream.Step` | internal/provider/copilot/stream.go:40-87 | one call of Next: a done stream returns EOF and changes nothing; any other call marks the status checked; a yield leaves the stream open with err and response unchanged; an error ends the stream and is kept in err; an EOF ends the stream with err unchanged; no more reader results are left than before |
| `CopilotStream.StepConsumesPrefix` | internal/provider/copilot/stream.go:63-86 | the reader is never rewound: after a call, the unread results are a suffix of the ones that were unread before |
| `CopilotStream.ScanPayloads` | internal/provider/copilot/stream.go:63-86 | one loop scan takes exactly the first of the stream's good chunks, or ends with the reader's terminal error when no good chunk is left |
| `CopilotStream.StepKeepsReachable` | internal/provider/copilot/stream.go:40-87 | every call keeps the fields in a state reachable from NewStream (err and response only once done, never both) |
| `CopilotStream.StatusCheckedOnce` | internal/provider/copilot/stream.go:41-47 | the first call sets statusChecked, it is never reset, and a done stream returns EOF and changes nothing |
| `CopilotStream.DoneIsFinal` | internal/provider/copilot/stream.go:41-43 | once done, any number of later calls return EOF and leave every field unchanged |
| `CopilotStream.NonOkResponse` | internal/provider/copilot/stream.go:48-53 | on a non-200 status the first call returns the upstream error with that status and the parsed body, keeps it in err, sets done, and no chunk follows |
| `CopilotStream.NonStreamingResponse` | internal/provider/copilot/stream.go:56-59 | a non-streaming 200 finishes on the first call: EOF with the normalized response kept and err nil, or the read/decode error returned and kept with no response; no chunk ever |
| `CopilotStream.StreamingRun` | internal/provider/copilot/stream.go:62-86 | a streaming 200 yields exactly the decodable non-empty events before the reader's first EOF or error, normalized, in order; then one EOF or that error, kept in err; then EOF only |
| `CopilotStream.OneTerminalError` | internal/provider/copilot/stream.go:65-71 | every run is chunks, then at most one EOF or error, then EOF only; the errors returned are exactly the one kept in err |
| `CopilotStream.SkipsEmptyAndMalformed` | internal/provider/copilot/stream.go:73-85 | an empty event, a malformed event and a good event give one chunk (the good one) and then EOF |
| `CopilotStream.Stream.constructor` | internal/provider/copilot/stream.go:27-36 | NewStream: nothing checked, nothing read, no response, no error |
| `CopilotStream.Stream.Next` | internal/provider/copilot/stream.go:40-87 | updates the fields and returns exactly as Step says, keeping the reachability invariant; the loop consumes skipped events |
| `CopilotStream.Stream.Response` | internal/provider/copilot/stream.go:110-112 | on a valid stream the response is absent until done, and when present the stream is done, has no error and came from a non-streaming 200; `NonStreamingResponse` states which value it holds |
| `CopilotStream.Stream.Err` | internal/provider/copilot/stream.go:115-117 | on a valid stream there is no error until done, and a kept error means there is no response; `OneTerminalError` states which value it holds |
| `CopilotStream.Stream.ReadNonStreaming` | internal/provider/copilot/stream.go:91-107 | keeps the normalized response and returns EOF, or keeps and returns the read or decode error |
| `CopilotClient.GetGitHubToken` | internal/provider/copilot/client.go:44-53 | a store failure is wrapped as "failed to get credentials", an empty refresh token is the no-token error, else the stored token |
| `CopilotClient.RefreshCopilotToken` | internal/provider/copilot/client.go:103-129 | succeeds iff the transport, the body read, the 200 status and the decode all succeed; the token and ExpiresAt are the decoded values; each failure has its own error: the wrapped transport error, the wrapped read error, the status with the body, the wrapped decode error |
| `CopilotClient.TokenStep` | internal/provider/copilot/client.go:56-88 | one call of getCopilotToken: a usable cache is returned unchanged; a failure leaves the cache as it was; a returned token is the one cached; the cache changes only when it was not usable and the call succeeded |
| `CopilotClient.CachedTokenReused` | internal/provider/copilot/client.go:57-62 | a cached token with now + 60s before its expiry is returned, the cache is unchanged, and the store and exchange answers do not matter |
| `CopilotClient.CredentialFailureKeepsCache` | internal/provider/copilot/client.go:74-78 | a failed lookup or an empty stored token is returned as an error and the cache is unchanged |
| `CopilotClient.ExchangeFailureKeepsCache` | internal/provider/copilot/client.go:80-84 | a failed exchange is returned as an error and the cache is unchanged |
| `CopilotClient.SuccessfulRefreshCached` | internal/provider/copilot/client.go:86-87 | a successful exchange caches the new token with the returned epoch expiry and returns that token |
| `CopilotClient.CacheWrittenOnlyOnSuccess` | internal/provider/copilot/client.go:56-88 | the cache changes only on a successful refresh, and whenever a token is returned it is the cached one |
| `CopilotClient.SecondCallReusesRefresh` | internal/provider/copilot/client.go:58-87 | after a successful refresh whose expiry is beyond now + 60s, a second call at the same now returns the same token and refreshes nothing |
| `CopilotClient.RefreshedTokenNotRechecked` | internal/provider/copilot/client.go:81-87 | the refresh path does not re-check expiry: a token reported as expiring now is cached and returned |
| `CopilotClient.GetInitiator` | internal/provider/copilot/client.go:200-207 | "agent" iff some message has role assistant or tool, else "user" |
| `CopilotClient.HasImagePart` | internal/provider/copilot/client.go:189-193 | true iff some part has type "image_url" or "image" |
| `CopilotClient.HasImageContent` | internal/provider/copilot/client.go:187-196 | true iff some content part of some message has type "image_url" or "image" |
| `CopilotClient.BuildHeaders` | internal/provider/copilot/client.go:153-175 | Accept is "text/event-stream" iff streaming, else "application/json"; X-Initiator is GetInitiator of the messages; Copilot-Vision-Request is present, as "true", iff the messages have image content; bearer token, content type, request id and intent as set |
| `CopilotClient.Client.constructor` | internal/provider/copilot/client.go:34-41 | a new client has no cached token |
| `CopilotClient.Client.GetCopilotToken` | internal/provider/copilot/client.go:56-88 | the cache and the result are those of TokenStep, including the double-check before refreshing |
| `CopilotClient.Client.SendRequest` | internal/provider/copilot/client.go:133-184 | a token failure is returned and nothing is sent; otherwise the request body is sent with headers as BuildHeaders states, and a transport error is wrapped as "failed to send request" |
| `CopilotProvider.ConvertEnvVarDocs` | internal/provider/copilot/provider.go:26-36 | same length; Name, Description and Default copied element by element |
| `CopilotProvider.TransformMessages` | internal/provider/copilot/provider.go:105-114 | same length; each system message becomes assistant with all other fields equal; every other message is copied unchanged; no system role remains |
| `CopilotProvider.RewriteIdempotent` | internal/provider/copilot/provider.go:108-111 | rewriting a rewritten conversation changes nothing |
| `CopilotProvider.InitiatorAfterRewrite` | internal/provider/copilot/provider.go:74-96 | after the rewrite the initiator is "agent" iff the input has a system, assistant or tool message |
| `CopilotProvider.VisionAfterRewrite` | internal/provider/copilot/provider.go:105-113 | the rewrite keeps every content part, so the vision flag is unchanged |
| `CopilotProvider.Provider.constructor` | internal/provider/copilot/provider.go:45-53 | the provider keeps the given client |
| `CopilotProvider.Provider.ChatCompletion` | internal/provider/copilot/provider.go:72-102 | every request field is copied except messages, which are rewritten; the same stream flag goes to the wire request and to the new stream; a send failure returns the error and no stream; the wire X-Initiator is "agent" iff the input has a system, assistant or tool message |

## Left out

- HTTP transport is not modelled: `http.Client.Do`, `NewRequestWithContext`, `io.ReadAll` and `Stream.Close` / `Body.Close`. Responses are given values: status, body bytes with the read error, and the reader's results.
- JSON is not modelled: `encoding/json` decoding is a given function per target (`Api.Codec`). `json.Marshal` of the chat request is assumed to succeed, so its error path in `SendRequest` is not modelled.
- The `sync.RWMutex` around the token cache is not modelled: there is one sequential caller. So the double-check at client.go:70 can never fire here. The "exactly one refresh among racing callers" property is about concurrency and is not stated.
- `time.Now` / `time.Unix` are not modelled: the clock is a parameter in whole epoch seconds. The sub-second part of `time.Now` in the 60-second cache test is not modelled.
- `UpstreamErrors.ToLower`: only ASCII letters are lowered. Non-ASCII letters that Go's `strings.ToLower` maps to ASCII are not modelled. For example, U+0130 'İ' lowers to 'i' in Go, so "model not avaİlable" gets the hint in Go but not in the model.
- `CopilotClient.BuildHeaders`: does not set User-Agent, Editor-Version, Editor-Plugin-Version, Copilot-Integration-Id or X-GitHub-API-Version, because their constant values (and `httputil.BuildUserAgent`) are not part of this model. The X-Request-Id value is a parameter standing for `uuid.New()`.
- `refreshCopilotToken` builds the exchange request with fixed headers. Those headers are not modelled: the exchange is a given function of the GitHub token.
- Integer widths are not modelled: `Created` and `ExpiresAt` are unbounded integers, so int64 limits are not.
- `sse.Reader` internals are not modelled (event framing, `data:` lines).
- `api.Message.GetContentParts` is not modelled: content is a sequence of typed parts. Messages carry role, content, name and tool-call id only. The request's tool and sampling fields are opaque values that are only copied.
- `Provider.ID` is not modelled: it returns the constant `ProviderID`, whose value is not part of this model.
- `Models`, `SupportsModel`, `Init`, `Start`, `Close` and `RefreshModels` are not modelled. They are one-line delegations to the models cache, which is not part of this model.
- `CopilotProvider.Provider.constructor`: keeps only the client that `New` creates (provider.go:45-53). The models cache and the loaded configuration are not modelled.
- `init()` registration, `LoadConfig`, `GetDeviceFlowConfig` and `EnvVarDocs` are not modelled: they are configuration and wiring outside the core.
