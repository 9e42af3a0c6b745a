/** `OpenAIAPI::Embedding`: one embedding call against one model. It carries its own copy of
    the classifier, which agrees with the completion client's on every status and body. */
module Embedding {
  import opened Wrappers
  import opened Wire
  import opened Errors
  import Decimal
  import Completion

  const EmbeddingsUrl := "https://api.openai.com/v1/embeddings"
  const ModelKey := Symbol("model")

  /** `parse_error_response`, this client's copy. */
  function ParseErrorResponse(body: Body): (r: Outcome<Details>)
    ensures r.Raised? <==> body.Unparsable?
    ensures r.Raised? ==> r.exception == Foreign(ParserErrorName)
    ensures WellFormed(body) ==> r == Returned(ErrorMember(body))
  {
    match body
    case Empty => Returned(Text(""))
    case Unparsable => Raised(Foreign(ParserErrorName))
    case Parsed(_, error) => Returned(error)
  }

  /** `handle_error400`, this client's copy, with the ContentFilter error built from its message
      and the error details. */
  function HandleError400(d: Details): (e: Exception)
    ensures d.Missing? <==> e == Foreign(NoMethodErrorName)
    ensures !d.Missing? ==> e.Api? && (e.error.ContentFilterError? || e.error.InvalidRequestError?)
    ensures !d.Missing? ==> (e.Api? && e.error.ContentFilterError? <==> CodeOf(d) == Some("content_filter"))
    ensures e.Api? && e.error.ContentFilterError? ==> e.error.contentFilters == d
  {
    if d.Missing? then Foreign(NoMethodErrorName)
    else if CodeOf(d) == Some("content_filter") then Api(ContentFilterError("Content filter triggered: \n" + Render(d), d))
    else Raise(InvalidRequest, "Invalid request: \n" + Render(d))
  }

  /** `handle_error400` of this client as the source writes it, with the same one-argument
      `raise` of ContentFilterError as the completion client. */
  function HandleError400AsWritten(d: Details): (e: Exception)
    ensures d.Missing? ==> e == Foreign(NoMethodErrorName)
    ensures !d.Missing? && CodeOf(d) == Some("content_filter") ==> e == Foreign(ArgumentErrorName)
    ensures !d.Missing? && CodeOf(d) != Some("content_filter") ==> e == HandleError400(d)
  {
    if d.Missing? then Foreign(NoMethodErrorName)
    else if CodeOf(d) == Some("content_filter") then Raise(ContentFilter, "Content filter triggered: \n" + Render(d))
    else Raise(InvalidRequest, "Invalid request: \n" + Render(d))
  }

  /** `handle_error404`, this client's copy. */
  function HandleError404(d: Details): (e: Exception)
    ensures d.Missing? <==> e == Foreign(NoMethodErrorName)
    ensures !d.Missing? ==> e.Api? && (e.error.DeploymentNotFoundError? || e.error.NotFoundError?)
    ensures !d.Missing? ==> (e.Api? && e.error.DeploymentNotFoundError? <==> CodeOf(d) == Some("DeploymentNotFound"))
  {
    if d.Missing? then Foreign(NoMethodErrorName)
    else if CodeOf(d) == Some("DeploymentNotFound") then Raise(DeploymentNotFound, "Deployment not found: \n" + Render(d))
    else Raise(NotFound, "Resource not found: \n" + Render(d))
  }

  /** `handle_unknown_error`, this client's copy. */
  function HandleUnknownError(status: int, d: Details): (e: Exception)
    ensures d.Missing? <==> e == Foreign(NoMethodErrorName)
    ensures !d.Missing? ==> e.Api? && e.error.UnexpectedResponseError?
  {
    if d.Missing? then Foreign(NoMethodErrorName)
    else
      var message := "Unexpected response from API: \n" + Decimal.IntToString(status);
      Raise(UnexpectedResponse, if IsEmpty(d) then message else message + " - " + Render(d))
  }

  /** `handle_error`, this client's copy: for a well-formed body the routing table's kind. */
  function HandleError(status: int, body: Body): (e: Exception)
    ensures body.Unparsable? ==> e == Foreign(ParserErrorName)
    ensures WellFormed(body) ==> e.Api? && e.error.Kind() == Routing(status, ErrorCode(body))
  {
    match ParseErrorResponse(body)
    case Raised(x) => x
    case Returned(d) =>
      if status == 400 then HandleError400(d)
      else if status == 401 then Raise(Authentication, "Invalid API key: \n" + Render(d))
      else if status == 404 then HandleError404(d)
      else if status == 429 then Raise(RateLimit, "Rate limit exceeded: \n" + Render(d))
      else HandleUnknownError(status, d)
  }

  /** `handle_response`, this client's copy: a 200 returns the parsed body, anything else raises
      the classified error. */
  function HandleResponse(status: int, body: Body): (r: Outcome<Json>)
    ensures status == 200 ==> (r.Returned? <==> body.Parsed?)
    ensures status == 200 && body.Parsed? ==> r.value == body.document
    ensures status == 200 && !body.Parsed? ==> r == Raised(Foreign(ParserErrorName))
    ensures status != 200 ==> r == Raised(HandleError(status, body))
  {
    if status == 200 then
      if body.Parsed? then Returned(body.document) else Raised(Foreign(ParserErrorName))
    else Raised(HandleError(status, body))
  }

  /** The two copies of the classifier raise the same error, kind and message alike, for every
      status and body, and handle responses alike. */
  lemma ClassifiersAgree(status: int, body: Body, d: Details)
    ensures ParseErrorResponse(body) == Completion.ParseErrorResponse(body)
    ensures HandleError400(d) == Completion.HandleError400(d)
    ensures HandleError404(d) == Completion.HandleError404(d)
    ensures HandleUnknownError(status, d) == Completion.HandleUnknownError(status, d)
    ensures HandleError(status, body) == Completion.HandleError(status, body)
    ensures HandleError400AsWritten(d) == Completion.HandleError400AsWritten(d)
    ensures HandleResponse(status, body).Raised? <==> Completion.HandleResponse(status, body).Raised?
    ensures HandleResponse(status, body).Raised? ==> HandleResponse(status, body).exception == Completion.HandleResponse(status, body).exception
    ensures HandleResponse(status, body).Returned? ==> Completion.HandleResponse(status, body).value == Completion.Document(HandleResponse(status, body).value)
  {
  }

  /** `parameters[:model] = @model_identifier`: the `:model` entry is set to the configured
      identifier and every other entry is kept. */
  function WithModel(parameters: Params, modelIdentifier: Value): (sent: Params)
    ensures ModelKey in sent && sent[ModelKey] == modelIdentifier
    ensures forall k :: k != ModelKey ==> (k in sent <==> k in parameters)
    ensures forall k :: k in parameters && k != ModelKey ==> sent[k] == parameters[k]
  {
    parameters[ModelKey := modelIdentifier]
  }

  /** A single-model embedding client. The memoised Faraday connection, its headers, timeouts
      and (empty) query parameters belong to the transport and are not modelled. */
  class Client {
    const name: string
    const apiKey: Value
    const modelIdentifier: Value
    const apiUrl: string

    constructor (model: ModelRef)
      ensures name == model.name && apiKey == Setting(model, "api_key")
      ensures modelIdentifier == Setting(model, "model") && apiUrl == EmbeddingsUrl
    {
      name := model.name;
      apiKey := Setting(model, "api_key");
      modelIdentifier := Setting(model, "model");
      apiUrl := EmbeddingsUrl;
    }

    /** `embed`: overwrites the caller's `:model` entry in place before anything is sent (so the
        change stays even when the exchange fails), then returns the parsed body or raises the
        classified or transport error. */
    method Embed(parameters: ParamHash, reply: Delivery) returns (result: Outcome<Json>)
      modifies parameters
      ensures parameters.entries == WithModel(old(parameters.entries), modelIdentifier)
      ensures reply.Failed? ==> result == Raised(Api(TransportError(reply.failure)))
      ensures reply.Delivered? ==> result == HandleResponse(reply.status, reply.body)
    {
      parameters.entries := parameters.entries[ModelKey := modelIdentifier];
      match reply
      case Failed(failure) =>
        result := Raised(Api(TransportError(failure)));
      case Delivered(status, body) =>
        result := HandleResponse(status, body);
    }
  }
}
