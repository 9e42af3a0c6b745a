# openai_api: error classifier, stream gate and multi-model fallback

A Dafny model of the resilience layer of the `openai_api` Ruby client:

- **The error taxonomy** (`OpenAIAPI::Error` and its nine subclasses). It is modelled as the
  datatype `Errors.ApiError`, one constructor per class. Only `ContentFilterError` has a second
  field, its `content_filters`. The module also models Ruby's class hierarchy and `rescue`
  matching (`Errors.IsA`, `Errors.Rescues`), and what `raise K, message` does (`Errors.Raise`).
- **The classifier** (`handle_error`, `handle_error400`, `handle_error404`,
  `handle_unknown_error`, `parse_error_response`, `handle_response`). It maps an HTTP status and
  a response body to a raised exception. It exists twice in the source, in the completion
  client and in the embedding client. Both copies are modelled (`Completion.*`, `Embedding.*`),
  and a lemma shows they agree.
- **The stream chunk gate** (`handle_stream_chunk`, `stream_chat`). Given the status and the
  records the event-stream parser yields, it either raises the classified error before
  anything reaches the caller's stream proc, or forwards every payload except `[DONE]`, in
  order. These are methods with loops, proved against a specification function.
- **The multi-model fallback** (`CompletionMultiModel#chat`). It loops over the models in
  order, builds a real `Completion.Client` for each and calls it. The loop is proved against a
  fold over the attempts' outcomes (`MultiModel.Fallback`). Lemmas state first-success-wins,
  the six rescued kinds, immediate propagation of the rest, the exhaustion error and the
  `nil` result for an empty list.
- **Request preparation**: `parameters.merge(stream: true)`, which builds a new hash, and the
  in-place `parameters[:model] = ...` of `embed` (a method that `modifies` the caller's hash
  object).

The transport, the JSON library and the event-stream parser are collaborators. What they
deliver is a parameter: a `Wire.Delivery` for a plain POST, a `Wire.StreamDelivery` (status,
chunks, optional transport failure) for a streamed one. A body is `Empty`, `Unparsable`, or
`Parsed(document, error)`. In the last case `error` is the Ruby value of its `"error"` member:
`nil`, a String, or a Hash. The client applies Ruby operations to that value. These are
modelled as Ruby defines them: `String#[]`, `nil.to_s`, `empty?`, and `NoMethodError` on
`nil`.

In these cases the code behaves in ways a reader might not expect, and the model does what the
code does:

- An empty model list makes the fallback return `nil`. It does not raise NotFound.
- A response body that is not JSON makes `JSON.parse` raise `JSON::ParserError`. That error
  escapes, because the `rescue` catches only `OpenAIAPI::Error`. So "Error details not
  available" is never produced.
- A JSON body without an `"error"` member leaves `error_response` as `nil`. Statuses 401 and
  429 still classify, with empty details. Statuses 400 and 404, and any unlisted status, then
  raise `NoMethodError`.
- A 200 response with an empty body raises `JSON::ParserError`.
- A streamed exchange with a non-200 status and no chunks returns the response without
  raising.

## Model

| member | source | states |
|---|---|---|
| `Errors.ErrorCatchesTheTaxonomy` | lib/openai_api.rb:13-31 | every specific class inherits from `OpenAIAPI::Error`; `rescue OpenAIAPI::Error` catches exactly the taxonomy's exceptions; everything modelled is a `StandardError` |
| `Errors.KindsAreSiblings` | lib/openai_api.rb:14-31 | one specific class is a subclass of another only when they are the same class (so rescuing NotFoundError does not catch DeploymentNotFoundError) |
| `Errors.RescuesSome` | lib/openai_api/completion_multi_model.rb:20-25 | a `rescue` clause that tries its classes in order catches an exception exactly when some listed class is a class of it |
| `Errors.Raise` | lib/openai_api.rb:21-28 | `raise K, message` yields a K error with that message for every kind except ContentFilter, whose two-argument constructor makes the call raise ArgumentError |
| `Errors.TransportError` | lib/openai_api/completion.rb:26-31 | a connection failure becomes a Connection error and a timeout a Timeout error, with the source's message prefixes |
| `Decimal.NatToStringRoundTrip` | lib/openai_api/completion.rb:118 | the decimal text of a status is a non-empty digit string without leading zeros that reads back as the number |
| `Decimal.IntToStringRoundTrip` | lib/openai_api/completion.rb:118 | `"#{status}"` is a numeral that reads back as the status, negative values included |
| `Wire.CodeOf` | lib/openai_api/completion.rb:109 | `error_response["code"]` on a String can only give back `"code"` itself (it never equals a discriminator); on a Hash it is the code member |
| `Completion.ParseErrorResponse` | lib/openai_api/completion.rb:123-131 | raises exactly for an unparsable body (JSON::ParserError, not caught); an empty body gives details that render as "", are empty and have no code; a well-formed body gives its error member |
| `Completion.HandleError400` | lib/openai_api/completion.rb:108-115 | with a non-nil error: ContentFilter if and only if the code is "content_filter", otherwise InvalidRequest; the ContentFilter error carries the details; a nil error raises NoMethodError |
| `Completion.HandleError400AsWritten` | lib/openai_api/completion.rb:108-115 | as written, a nil error raises NoMethodError, a "content_filter" code raises ArgumentError, and any other code gives the corrected handler's InvalidRequest error |
| `Completion.ContentFilterRaiseFails` | lib/openai_api/completion.rb:111 | for a concrete content-filter error body, the as-written handler raises ArgumentError while the corrected one raises ContentFilterError carrying that body's details |
| `Completion.HandleError404` | lib/openai_api/completion.rb:99-106 | with a non-nil error: DeploymentNotFound if and only if the code is "DeploymentNotFound", otherwise NotFound; a nil error raises NoMethodError |
| `Completion.HandleUnknownError` | lib/openai_api/completion.rb:117-121 | with non-nil details, always UnexpectedResponse with the "Unexpected response from API: \n" prefix; nil details raise NoMethodError |
| `Completion.HandleError` | lib/openai_api/completion.rb:88-97 | for an empty or well-formed body the kind is the routing table's (`Errors.Routing`) for the status and error code; an unparsable body raises JSON::ParserError; with a nil error member only 401 and 429 classify; Connection and Timeout never come from the classifier |
| `Completion.EmptyBodyByStatus` | lib/openai_api/completion.rb:123-124 | with an empty body the error, kind and message, depends on the status alone |
| `Completion.StatusOnlyKinds` | lib/openai_api/completion.rb:92-94 | 401 is always Authentication and 429 always RateLimit, whatever the (parsable) body |
| `Completion.UnexpectedResponseMessage` | lib/openai_api/completion.rb:117-121 | the message is the prefix, then the status in decimal (reading back as the status), then " - " and the details exactly when the details are non-empty |
| `Completion.HandleResponse` | lib/openai_api/completion.rb:60-64 | a 200 returns the parsed document (or raises the parser's error for a non-JSON body) and never classifies; any other status raises the classified error |
| `Completion.SingleRequestChat` | lib/openai_api/completion.rb:50-58 | a transport failure raises its Connection/Timeout error; in raw mode the response is returned unclassified; otherwise the response is handled |
| `Completion.WithStreamFlag` | lib/openai_api/completion.rb:67 | the streamed request carries `stream: true` and every other key of the caller's hash unchanged |
| `Completion.PayloadsAppend` | lib/openai_api/completion.rb:81-85 | what reaches the stream proc does not depend on how the record stream is split into chunks |
| `Completion.PayloadOrigins` | lib/openai_api/completion.rb:81-85 | each forwarded payload comes from a record, in strictly increasing record order, and exactly the records whose data is not "[DONE]" are forwarded; "[DONE]" never is |
| `Completion.HandleStreamChunk` | lib/openai_api/completion.rb:78-86 | a non-200 chunk raises the classified error with the chunk as body and forwards nothing; a 200 chunk forwards exactly its non-marker payloads in order |
| `Completion.StreamChat` | lib/openai_api/completion.rb:66-76 | the chunk loop produces exactly the stream specification: flagged request, first chunk's error for a non-200 status with nothing forwarded, else all payloads in order followed by the transport failure or the response |
| `Completion.ChatSpec` | lib/openai_api/completion.rb:19-32 | a plain call sends the caller's parameters and forwards nothing; a streamed call sends them with the stream flag; a Connection/Timeout outcome only arises from a transport failure |
| `Completion.Client.constructor` | lib/openai_api/completion.rb:11-17 | the client keeps the model's name and api key, the chat URL, the stream proc and the raw flag |
| `Completion.Client.SetStream` | lib/openai_api/completion.rb:7 | the `stream=` writer replaces the stream proc and leaves the raw flag |
| `Completion.Client.SetRaw` | lib/openai_api/completion.rb:7 | the `raw=` writer replaces the raw flag and leaves the stream proc |
| `Completion.Client.Chat` | lib/openai_api/completion.rb:19-32 | dispatches on whether a stream proc is set and produces exactly `ChatSpec`'s result |
| `Embedding.ParseErrorResponse` | lib/openai_api/embedding.rb:92-100 | raises exactly for an unparsable body; a well-formed body gives its error member ("" when empty) |
| `Embedding.HandleError400` | lib/openai_api/embedding.rb:77-84 | with a non-nil error: ContentFilter if and only if the code is "content_filter", otherwise InvalidRequest; the ContentFilter error carries the details; a nil error raises NoMethodError |
| `Embedding.HandleError400AsWritten` | lib/openai_api/embedding.rb:77-84 | as written, a nil error raises NoMethodError, a "content_filter" code raises ArgumentError, and any other code gives the corrected handler's InvalidRequest error |
| `Embedding.HandleError404` | lib/openai_api/embedding.rb:68-75 | with a non-nil error: DeploymentNotFound if and only if the code is "DeploymentNotFound", otherwise NotFound; a nil error raises NoMethodError |
| `Embedding.HandleUnknownError` | lib/openai_api/embedding.rb:86-90 | non-nil details give UnexpectedResponse; nil raises NoMethodError |
| `Embedding.HandleError` | lib/openai_api/embedding.rb:57-66 | for an empty or well-formed body the routing table's kind; an unparsable body raises JSON::ParserError |
| `Embedding.HandleResponse` | lib/openai_api/embedding.rb:51-55 | a 200 returns the parsed document; any other status raises the classified error |
| `Embedding.ClassifiersAgree` | lib/openai_api/embedding.rb:57-100 | the two copies of `parse_error_response`, `handle_error400` (corrected and as written), `handle_error404`, `handle_unknown_error` and `handle_error` give equal results on every input, and `handle_response` agrees |
| `Embedding.WithModel` | lib/openai_api/embedding.rb:16 | the `:model` entry becomes the configured identifier; every other key keeps its value (a `"model"` string key is a different key and stays) |
| `Embedding.Client.constructor` | lib/openai_api/embedding.rb:8-13 | the client keeps the model's name, api key, model identifier (nil when unset) and the embeddings URL |
| `Embedding.Client.Embed` | lib/openai_api/embedding.rb:15-29 | the caller's hash is changed in place to `WithModel` of its old entries, even when the exchange fails; the result is the handled response or the transport error |
| `MultiModel.RescuedKinds` | lib/openai_api/completion_multi_model.rb:20-25 | the rescue list catches exactly NotFound, DeploymentNotFound, Authentication, RateLimit, InvalidRequest and UnexpectedResponse, and nothing from outside the taxonomy |
| `MultiModel.ContentFilterStopsFallback` | lib/openai_api/completion_multi_model.rb:20-25 | for a content-filter refusal neither the as-written ArgumentError nor the intended ContentFilterError is rescued |
| `MultiModel.DecidedAt` | lib/openai_api/completion_multi_model.rb:17-30 | the first attempt not rescued, after rescued failures only, decides the result, and exactly that many models are tried |
| `MultiModel.FirstSuccessWins` | lib/openai_api/completion_multi_model.rb:17-19 | a success after rescued failures is returned and no later model is tried |
| `MultiModel.UnrescuedPropagates` | lib/openai_api/completion_multi_model.rb:20-25 | a Connection, Timeout, ContentFilter or foreign failure propagates at once and no later model is tried |
| `MultiModel.Exhausted` | lib/openai_api/completion_multi_model.rb:32 | when every model of a non-empty list fails with a rescued kind, all are tried and NotFound "No models available" is raised |
| `MultiModel.AttemptsDecide` | lib/openai_api/completion_multi_model.rb:14-33 | the result is `nil` exactly for an empty list; at most every model is tried; all but the last tried were rescued; the last tried decides the result or the list was exhausted |
| `MultiModel.CompletionMultiModel.constructor` | lib/openai_api/completion_multi_model.rb:9-12 | keeps the model list and the stream proc |
| `MultiModel.CompletionMultiModel.SetStream` | lib/openai_api/completion_multi_model.rb:7 | the `stream=` writer replaces the stream proc used by later calls |
| `MultiModel.CompletionMultiModel.ClientFor` | lib/openai_api/completion_multi_model.rb:18 | each iteration's client is a new completion client for that model, with the multi-model's stream proc and raw mode off |
| `MultiModel.CompletionMultiModel.Attempt` | lib/openai_api/completion_multi_model.rb:18-19 | one iteration calls that model's client, and its call (outcome, request body, payloads passed to the stream proc) is exactly that model's attempt result |
| `MultiModel.CompletionMultiModel.Chat` | lib/openai_api/completion_multi_model.rb:14-33 | the result is the fallback over the attempts' outcomes (`nil` for an empty list); the calls made are exactly the first `Attempts` models' attempts, in list order, so no model is called after the one that decides |
| `MultiModel.SameRequestBody` | lib/openai_api/completion_multi_model.rb:18 | every model is sent the same request body: the caller's parameters, with `stream: true` added when a stream proc is set |

## Left out

- The Faraday transport is not modelled: the memoised connection, the headers, the timeouts
  and the empty query parameters. The `Authorization: Bearer` header follows section 2.1 of
  RFC 6750. What an exchange delivers is a parameter of the client methods.
- JSON parsing is not modelled. A parsed document is the abstract type `Wire.Json`. A stream
  payload is forwarded as its data string, and the failure of `JSON.parse(data)` on a
  malformed payload is not modelled.
- `Hash#to_s` is not modelled. The rendering of an error Hash is given text (`Object.text`),
  and its emptiness is its member count.
- Error members that are numbers, arrays or booleans are not modelled, and neither are
  top-level documents that are not objects. Only `nil`, String and Hash are.
- Event-stream framing and buffering across chunks are not modelled: they belong to the
  parser gem. Each chunk comes with the records the parser yields for it.
- The `env` argument passed to the stream proc is not modelled, nor exceptions raised by the
  proc itself.
- `@stream&.call`: `stream_chat` runs only when a stream proc is set, so the nil-safe call is
  modelled as always calling.
- The `puts` logging in the fallback is a side effect only and is not modelled.
- The stream delta merger (`stream_merger.rb`) and the body cleaner (`helper.rb`) are not
  modelled: they are outside the classifier, the stream gate and the fallback.
- A model whose configuration is `nil` (so that `Completion.new` itself raises) is not
  modelled. Every `Wire.ModelRef` has a configuration map.

## Findings

| source | as written | input that shows it | evidently intended | confidence | as-written member | corrected member |
|---|---|---|---|---|---|---|
| lib/openai_api/completion.rb:111 | `raise ContentFilterError, msg` calls the two-argument constructor of lib/openai_api.rb:24 with one argument, so Ruby raises ArgumentError | status 400 with body `{"error": {"code": "content_filter", ...}}` | a ContentFilterError carrying the filter details | high (not executed) | `Completion.HandleError400AsWritten` (`Completion.ContentFilterRaiseFails`) | `Completion.HandleError400` |
| lib/openai_api/embedding.rb:80 | the same one-argument `raise` of ContentFilterError | status 400 with body `{"error": {"code": "content_filter", ...}}` | a ContentFilterError carrying the filter details | high (not executed) | `Embedding.HandleError400AsWritten` | `Embedding.HandleError400` |

Neither exception is in the fallback's rescue list, so either way the fallback stops at that
model (`MultiModel.ContentFilterStopsFallback`). The content-filter payload the source
evidently intended is not visible in the code. The corrected handler passes the parsed error
details as the payload.

Everything built on the classifier uses the corrected handlers: `Completion.HandleError`,
`Completion.HandleResponse`, `Completion.SingleRequestChat`, `Completion.HandleStreamChunk`,
`Completion.StreamChat`, `Completion.ChatSpec`, `Completion.Client.Chat`,
`Embedding.HandleError`, `Embedding.HandleResponse`, `Embedding.Client.Embed` and
`MultiModel.CompletionMultiModel.Chat`. For a 400 response whose code is "content_filter" they
give a ContentFilterError where the code as written raises ArgumentError.
