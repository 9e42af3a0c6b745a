/** `OpenAIAPI::Completion`: one chat call against one model, plain or streamed, and the
    classifier that turns a non-200 response into an error of the taxonomy. */
module Completion {
  import opened Wrappers
  import opened Wire
  import opened Errors
  import Decimal

  const EndOfStreamMarker := "[DONE]"
  const ChatUrl := "https://api.openai.com/v1/chat/completions"
  const StreamKey := Symbol("stream")
  const UnexpectedPrefix := "Unexpected response from API: \n"

  /** What a successful `chat` returns: the parsed body, the response itself when `raw` is set,
      or the response of a streamed exchange (whose content went to the stream proc). */
  datatype Reply =
    | Document(json: Json)
    | RawResponse(status: int, body: Body)
    | StreamResponse(status: int)

  /** Everything one `chat` call produces: its outcome, the request body it transmitted and the
      payloads it passed to the stream proc, in order. */
  datatype ChatResult = ChatResult(outcome: Outcome<Reply>, sent: Params, forwarded: seq<string>)

  // ---------------------------------------------------------------------------------------
  // The classifier

  /** `parse_error_response`. An empty body gives "", a JSON body its "error" member, and a body
      that is not JSON raises the parser's error, which `rescue OpenAIAPI::Error` lets through. */
  function ParseErrorResponse(body: Body): (r: Outcome<Details>)
    ensures r.Raised? <==> body.Unparsable?
    ensures r.Raised? ==> r.exception == Foreign(ParserErrorName)
    ensures body.Empty? ==> r.Returned? && !r.value.Missing? && Render(r.value) == "" && IsEmpty(r.value) && CodeOf(r.value) == None
    ensures WellFormed(body) ==> r == Returned(ErrorMember(body))
  {
    match body
    case Empty => Returned(Text(""))
    case Unparsable => Raised(Foreign(ParserErrorName))
    case Parsed(_, error) => Returned(error)
  }

  /** `handle_error400`: ContentFilter exactly when the error's code is "content_filter",
      InvalidRequest otherwise; indexing a `nil` error raises NoMethodError. The ContentFilter
      error is built with the error details as its `content_filters`. */
  function HandleError400(d: Details): (e: Exception)
    ensures d.Missing? <==> e == Foreign(NoMethodErrorName)
    ensures !d.Missing? ==> e.Api? && (e.error.ContentFilterError? || e.error.InvalidRequestError?)
    ensures !d.Missing? ==> (e.Api? && e.error.ContentFilterError? <==> CodeOf(d) == Some("content_filter"))
    ensures e.Api? && e.error.ContentFilterError? ==> e.error.contentFilters == d
  {
    if d.Missing? then Foreign(NoMethodErrorName)
    else if CodeOf(d) == Some("content_filter") then Api(ContentFilterError("Content filter triggered: \n" + Render(d), d))
    else Raise(InvalidRequest, "Invalid request: \n" + Render(d))
  }

  /** `handle_error400` as the source writes it: `raise OpenAIAPI::ContentFilterError, message`
      passes one argument to a two-argument constructor, so a content-filter refusal surfaces
      as an ArgumentError instead of a ContentFilterError. */
  function HandleError400AsWritten(d: Details): (e: Exception)
    ensures d.Missing? ==> e == Foreign(NoMethodErrorName)
    ensures !d.Missing? && CodeOf(d) == Some("content_filter") ==> e == Foreign(ArgumentErrorName)
    ensures !d.Missing? && CodeOf(d) != Some("content_filter") ==> e == HandleError400(d)
  {
    if d.Missing? then Foreign(NoMethodErrorName)
    else if CodeOf(d) == Some("content_filter") then Raise(ContentFilter, "Content filter triggered: \n" + Render(d))
    else Raise(InvalidRequest, "Invalid request: \n" + Render(d))
  }

  /** A content-filter refusal: as written it raises ArgumentError; as intended, a
      ContentFilterError carrying the error details. */
  lemma ContentFilterRaiseFails()
    ensures var d := Object(Some("content_filter"), 2, "{\"code\"=>\"content_filter\", \"message\"=>\"blocked\"}");
      && HandleError400AsWritten(d) == Foreign(ArgumentErrorName)
      && HandleError400(d).Api? && HandleError400(d).error.ContentFilterError?
      && HandleError400(d).error.contentFilters == d
  {
  }

  /** `handle_error404`: DeploymentNotFound exactly when the error's code is
      "DeploymentNotFound", NotFound otherwise. */
  function HandleError404(d: Details): (e: Exception)
    ensures d.Missing? <==> e == Foreign(NoMethodErrorName)
    ensures !d.Missing? ==> e.Api? && (e.error.DeploymentNotFoundError? || e.error.NotFoundError?)
    ensures !d.Missing? ==> (e.Api? && e.error.DeploymentNotFoundError? <==> CodeOf(d) == Some("DeploymentNotFound"))
  {
    if d.Missing? then Foreign(NoMethodErrorName)
    else if CodeOf(d) == Some("DeploymentNotFound") then Raise(DeploymentNotFound, "Deployment not found: \n" + Render(d))
    else Raise(NotFound, "Resource not found: \n" + Render(d))
  }

  /** `handle_unknown_error`: an UnexpectedResponse error whose message names the status and,
      when the details are not empty, the details; `nil.empty?` raises NoMethodError. */
  function HandleUnknownError(status: int, d: Details): (e: Exception)
    ensures d.Missing? <==> e == Foreign(NoMethodErrorName)
    ensures !d.Missing? ==> e.Api? && e.error.UnexpectedResponseError?
    ensures !d.Missing? ==> |UnexpectedPrefix| <= |e.error.message| && e.error.message[..|UnexpectedPrefix|] == UnexpectedPrefix
  {
    if d.Missing? then Foreign(NoMethodErrorName)
    else
      var message := UnexpectedPrefix + Decimal.IntToString(status);
      Raise(UnexpectedResponse, if IsEmpty(d) then message else message + " - " + Render(d))
  }

  /** `handle_error`: the status selects the handler; the body only matters through its error
      member. For a well-formed body the kind is the one the routing table gives, and the
      classifier never produces the transport kinds. */
  function HandleError(status: int, body: Body): (e: Exception)
    ensures body.Unparsable? ==> e == Foreign(ParserErrorName)
    ensures WellFormed(body) ==> e.Api? && e.error.Kind() == Routing(status, ErrorCode(body))
    ensures body.Parsed? && body.error.Missing? ==> (e.Api? <==> status == 401 || status == 429)
    ensures e.Api? ==> e.error.Kind() != Connection && e.error.Kind() != Timeout
  {
    match ParseErrorResponse(body)
    case Raised(x) => x
    case Returned(d) =>
      if status == 400 then HandleError400(d)
      else if status == 401 then Raise(Authentication, "Invalid API key: \n" + Render(d))
      else if status == 404 then HandleError404(d)
      else if status == 429 then Raise(RateLimit, "Rate limit exceeded: \n" + Render(d))
      else HandleUnknownError(status, d)
  }

  /** With an empty body every detail is "", so the error depends on the status alone. */
  lemma EmptyBodyByStatus(status: int)
    ensures HandleError(status, Empty) ==
      if status == 400 then Api(InvalidRequestError("Invalid request: \n"))
      else if status == 401 then Api(AuthenticationError("Invalid API key: \n"))
      else if status == 404 then Api(NotFoundError("Resource not found: \n"))
      else if status == 429 then Api(RateLimitError("Rate limit exceeded: \n"))
      else Api(UnexpectedResponseError(UnexpectedPrefix + Decimal.IntToString(status)))
  {
  }

  /** 401 and 429 classify by status alone: whatever the error member, Authentication and
      RateLimit errors whose message ends with the rendered details. */
  lemma StatusOnlyKinds(body: Body)
    requires !body.Unparsable?
    ensures var d := if body.Empty? then Text("") else body.error;
      HandleError(401, body) == Api(AuthenticationError("Invalid API key: \n" + Render(d)))
      && HandleError(429, body) == Api(RateLimitError("Rate limit exceeded: \n" + Render(d)))
  {
  }

  /** The shape of the UnexpectedResponse message: the prefix, the status in decimal (which
      reads back as the status), then " - " and the details exactly when they are not empty. */
  lemma UnexpectedResponseMessage(status: int, body: Body)
    requires WellFormed(body)
    requires status != 400 && status != 401 && status != 404 && status != 429
    ensures var m := HandleError(status, body).error.message;
      var digits := Decimal.IntToString(status);
      var d := ErrorMember(body);
      && m[..|UnexpectedPrefix|] == UnexpectedPrefix
      && m[|UnexpectedPrefix|..|UnexpectedPrefix| + |digits|] == digits
      && Decimal.IsNumeral(digits) && Decimal.ParseInt(digits) == status
      && (|m| == |UnexpectedPrefix| + |digits| <==> IsEmpty(d))
      && (!IsEmpty(d) ==> m[|UnexpectedPrefix| + |digits|..] == " - " + Render(d))
  {
    Decimal.IntToStringRoundTrip(status);
    var m := HandleError(status, body).error.message;
    var digits := Decimal.IntToString(status);
    var d := ErrorMember(body);
    if IsEmpty(d) {
      assert m == UnexpectedPrefix + digits;
    } else {
      assert m == UnexpectedPrefix + digits + (" - " + Render(d));
    }
  }

  /** `handle_response`: a 200 returns the parsed body and never reaches the classifier (an
      empty or non-JSON 200 body makes `JSON.parse` raise); any other status raises the
      classified error. */
  function HandleResponse(status: int, body: Body): (r: Outcome<Reply>)
    ensures status == 200 ==> (r.Returned? <==> body.Parsed?)
    ensures status == 200 && body.Parsed? ==> r.value == Document(body.document)
    ensures status == 200 && !body.Parsed? ==> r == Raised(Foreign(ParserErrorName))
    ensures status != 200 ==> r == Raised(HandleError(status, body))
  {
    if status == 200 then
      if body.Parsed? then Returned(Document(body.document)) else Raised(Foreign(ParserErrorName))
    else Raised(HandleError(status, body))
  }

  // ---------------------------------------------------------------------------------------
  // Plain and streamed requests

  /** `single_request_chat` with the rescue of `chat`: a transport failure becomes a
      Connection or Timeout error; with `raw` set the response is returned unclassified. */
  function SingleRequestChat(raw: bool, reply: Delivery): (r: Outcome<Reply>)
    ensures reply.Failed? ==> r == Raised(Api(TransportError(reply.failure)))
    ensures reply.Delivered? && raw ==> r == Returned(RawResponse(reply.status, reply.body))
    ensures reply.Delivered? && !raw ==> r == HandleResponse(reply.status, reply.body)
  {
    match reply
    case Failed(failure) => Raised(Api(TransportError(failure)))
    case Delivered(status, body) => if raw then Returned(RawResponse(status, body)) else HandleResponse(status, body)
  }

  /** `parameters.merge(stream: true)`: a new Hash with the `:stream` flag set; every other key
      keeps its value, and the caller's Hash is not changed. */
  function WithStreamFlag(parameters: Params): (sent: Params)
    ensures StreamKey in sent && sent[StreamKey] == BoolValue(true)
    ensures forall k :: k != StreamKey ==> (k in sent <==> k in parameters)
    ensures forall k :: k in parameters && k != StreamKey ==> sent[k] == parameters[k]
  {
    parameters[StreamKey := BoolValue(true)]
  }

  /** The payloads of `records` that reach the stream proc: every one but the end marker, in
      parser order. */
  function Payloads(records: seq<Record>): seq<string> {
    if records == [] then []
    else
      var last := records[|records| - 1];
      Payloads(records[..|records| - 1]) + (if last.data == EndOfStreamMarker then [] else [last.data])
  }

  /** The records of all chunks, in arrival order. */
  function AllRecords(chunks: seq<Chunk>): seq<Record> {
    if chunks == [] then [] else AllRecords(chunks[..|chunks| - 1]) + chunks[|chunks| - 1].records
  }

  /** Filtering commutes with splitting the record stream: how the transport cuts the stream
      into chunks does not change what reaches the stream proc. */
  lemma {:induction false} PayloadsAppend(a: seq<Record>, b: seq<Record>)
    ensures Payloads(a + b) == Payloads(a) + Payloads(b)
    decreases |b|
  {
    if b == [] {
      assert a + b == a;
    } else {
      var n := |b| - 1;
      assert (a + b)[..|a + b| - 1] == a + b[..n];
      PayloadsAppend(a, b[..n]);
    }
  }

  /** `origin` maps the payloads of `records` back to the records they came from, in order, and
      hits exactly the records whose data is not the end marker. */
  predicate OriginOf(records: seq<Record>, payloads: seq<string>, origin: seq<nat>) {
    && |origin| == |payloads|
    && (forall k :: 0 <= k < |origin| ==> origin[k] < |records| && payloads[k] == records[origin[k]].data)
    && (forall k, l :: 0 <= k < l < |origin| ==> origin[k] < origin[l])
    && (forall i :: 0 <= i < |records| ==> (records[i].data != EndOfStreamMarker <==> i in origin))
  }

  /** One end marker more: the payloads and their origins stay as they are. */
  lemma {:induction false} OriginSkip(records: seq<Record>, o: seq<nat>)
    requires records != [] && records[|records| - 1].data == EndOfStreamMarker
    requires OriginOf(records[..|records| - 1], Payloads(records[..|records| - 1]), o)
    ensures OriginOf(records, Payloads(records), o)
  {
    var n := |records| - 1;
    var prefix := records[..n];
    assert forall i :: 0 <= i < n ==> records[i] == prefix[i];
    assert Payloads(records) == Payloads(prefix);
    forall i | 0 <= i < |records|
      ensures records[i].data != EndOfStreamMarker <==> i in o
    {
      if i == n {
        assert forall k :: 0 <= k < |o| ==> o[k] < n;
      }
    }
  }

  /** One payload record more: its index joins the origins, after all the others. */
  lemma {:induction false} OriginExtend(records: seq<Record>, o: seq<nat>)
    requires records != [] && records[|records| - 1].data != EndOfStreamMarker
    requires OriginOf(records[..|records| - 1], Payloads(records[..|records| - 1]), o)
    ensures OriginOf(records, Payloads(records), o + [|records| - 1])
  {
    var n := |records| - 1;
    var origin := o + [n];
    assert forall i :: 0 <= i < n ==> records[i] == records[..n][i];
    assert Payloads(records) == Payloads(records[..n]) + [records[n].data];
    assert forall i :: 0 <= i < n ==> (i in o <==> i in origin);
  }

  /** Every payload other than the end marker reaches the stream proc exactly once, in parser
      order, and the end marker never does: `origin` maps each forwarded payload to the record
      it came from, strictly increasing, and hits exactly the records whose data is not the
      marker. */
  lemma {:induction false} PayloadOrigins(records: seq<Record>) returns (origin: seq<nat>)
    ensures |origin| == |Payloads(records)|
    ensures forall k :: 0 <= k < |origin| ==> origin[k] < |records| && Payloads(records)[k] == records[origin[k]].data
    ensures forall k, l :: 0 <= k < l < |origin| ==> origin[k] < origin[l]
    ensures forall i :: 0 <= i < |records| ==> (records[i].data != EndOfStreamMarker <==> i in origin)
    ensures EndOfStreamMarker !in Payloads(records)
  {
    if records == [] {
      origin := [];
    } else {
      var o := PayloadOrigins(records[..|records| - 1]);
      if records[|records| - 1].data == EndOfStreamMarker {
        OriginSkip(records, o);
        origin := o;
      } else {
        OriginExtend(records, o);
        origin := o + [|records| - 1];
      }
    }
    forall k | 0 <= k < |Payloads(records)|
      ensures Payloads(records)[k] != EndOfStreamMarker
    {
      assert Payloads(records)[k] == records[origin[k]].data;
    }
  }

  /** `handle_stream_chunk`: a chunk whose status is not 200 raises the classified error, with
      the chunk as the body, before anything reaches the stream proc; otherwise the payloads
      the parser yields for the chunk are forwarded in order, the end marker skipped. */
  method HandleStreamChunk(status: int, chunk: Chunk) returns (error: Option<Exception>, forwarded: seq<string>)
    ensures status != 200 ==> error == Some(HandleError(status, chunk.body)) && forwarded == []
    ensures status == 200 ==> error == None && forwarded == Payloads(chunk.records)
  {
    if status != 200 {
      return Some(HandleError(status, chunk.body)), [];
    }
    error, forwarded := None, [];
    var records := chunk.records;
    var i := 0;
    while i < |records|
      invariant 0 <= i <= |records|
      invariant forwarded == Payloads(records[..i])
    {
      assert records[..i + 1][..i] == records[..i];
      var data := records[i].data;
      if data != EndOfStreamMarker {
        forwarded := forwarded + [data];
      }
      i := i + 1;
    }
    assert records[..i] == records;
  }

  /** What `stream_chat` does with a streamed exchange: the request carries the stream flag; if
      the status is not 200 the first chunk raises its classified error and nothing is
      forwarded; otherwise every payload of every chunk is forwarded in order, then a transport
      failure (if any) raises its error and a completed exchange returns the response. */
  function StreamSpec(parameters: Params, streamed: StreamDelivery): (r: ChatResult) {
    var sent := WithStreamFlag(parameters);
    if streamed.status != 200 && |streamed.chunks| > 0 then
      ChatResult(Raised(HandleError(streamed.status, streamed.chunks[0].body)), sent, [])
    else
      var outcome :=
        if streamed.failure.Some? then Raised(Api(TransportError(streamed.failure.value)))
        else Returned(StreamResponse(streamed.status));
      ChatResult(outcome, sent, Payloads(AllRecords(streamed.chunks)))
  }

  /** `stream_chat` with the rescue of `chat`: feeds the chunks one by one to
      `handle_stream_chunk`, stopping at the first raised error. */
  method StreamChat(parameters: Params, streamed: StreamDelivery) returns (result: Outcome<Reply>, sent: Params, forwarded: seq<string>)
    ensures ChatResult(result, sent, forwarded) == StreamSpec(parameters, streamed)
  {
    sent := WithStreamFlag(parameters);
    forwarded := [];
    var chunks := streamed.chunks;
    var i := 0;
    while i < |chunks|
      invariant 0 <= i <= |chunks|
      invariant streamed.status != 200 ==> i == 0
      invariant forwarded == Payloads(AllRecords(chunks[..i]))
    {
      var error, out := HandleStreamChunk(streamed.status, chunks[i]);
      if error.Some? {
        result := Raised(error.value);
        return;
      }
      assert chunks[..i + 1][..i] == chunks[..i];
      PayloadsAppend(AllRecords(chunks[..i]), chunks[i].records);
      forwarded := forwarded + out;
      i := i + 1;
    }
    assert chunks[..i] == chunks;
    if streamed.failure.Some? {
      result := Raised(Api(TransportError(streamed.failure.value)));
    } else {
      result := Returned(StreamResponse(streamed.status));
    }
  }

  /** One `chat` call of a client whose stream proc is set (`streaming`) or not. */
  function ChatSpec(streaming: bool, raw: bool, parameters: Params, reply: Delivery, streamed: StreamDelivery): (r: ChatResult)
    ensures !streaming ==> r.sent == parameters && r.forwarded == []
    ensures streaming ==> r.sent == WithStreamFlag(parameters)
    ensures r.outcome.Raised? && r.outcome.exception.Api? && r.outcome.exception.error.Kind() in {Connection, Timeout}
      ==> (if streaming then streamed.failure.Some? else reply.Failed?)
  {
    if streaming then StreamSpec(parameters, streamed)
    else ChatResult(SingleRequestChat(raw, reply), parameters, [])
  }

  /** A single-model client. The memoised Faraday connection, its headers and timeouts belong
      to the transport and are not modelled; the exchange's result is a parameter of `Chat`. */
  class Client {
    const name: string
    const apiKey: Value
    const apiUrl: string
    var stream: Option<Sink>
    var raw: bool

    constructor (model: ModelRef, stream: Option<Sink>, raw: bool)
      ensures name == model.name && apiKey == Setting(model, "api_key") && apiUrl == ChatUrl
      ensures this.stream == stream && this.raw == raw
    {
      name := model.name;
      apiKey := Setting(model, "api_key");
      apiUrl := ChatUrl;
      this.stream := stream;
      this.raw := raw;
    }

    /** The `stream=` writer: later calls stream to the new proc (or stop streaming for `nil`). */
    method SetStream(stream: Option<Sink>)
      modifies this
      ensures this.stream == stream && raw == old(raw)
    {
      this.stream := stream;
    }

    /** The `raw=` writer: later plain requests return the response unclassified, or not. */
    method SetRaw(raw: bool)
      modifies this
      ensures this.raw == raw && stream == old(stream)
    {
      this.raw := raw;
    }

    /** `chat`: a plain request when no stream proc is set, a streamed one otherwise. */
    method Chat(parameters: Params, reply: Delivery, streamed: StreamDelivery) returns (result: Outcome<Reply>, sent: Params, forwarded: seq<string>)
      ensures ChatResult(result, sent, forwarded) == ChatSpec(stream.Some?, raw, parameters, reply, streamed)
    {
      if stream.None? {
        result, sent, forwarded := SingleRequestChat(raw, reply), parameters, [];
      } else {
        result, sent, forwarded := StreamChat(parameters, streamed);
      }
    }
  }
}
