/** `OpenAIAPI::CompletionMultiModel`: the chat call tried against an ordered list of models,
    one at a time, falling back to the next model on the failures that say "this model is not
    available" and giving up on every other failure. */
module MultiModel {
  import opened Wrappers
  import opened Wire
  import opened Errors
  import Completion

  const NoModelsMessage := "No models available"

  /** The classes the fallback's `rescue` clause lists. */
  const RescuedClasses: seq<RubyClass> := [
    KindClass(NotFound), KindClass(DeploymentNotFound), KindClass(Authentication),
    KindClass(RateLimit), KindClass(InvalidRequest), KindClass(UnexpectedResponse)
  ]

  /** An attempt whose failure the `rescue` clause catches, so the loop goes on. */
  predicate Advances<R>(attempt: Outcome<R>) {
    attempt.Raised? && Rescues(RescuedClasses, attempt.exception)
  }

  /** The rescue list catches exactly six kinds of the taxonomy: not Connection, Timeout or
      ContentFilter, and nothing from outside the taxonomy. */
  lemma RescuedKinds(e: Exception)
    ensures Rescues(RescuedClasses, e) <==>
      e.Api? && e.error.Kind() in {NotFound, DeploymentNotFound, Authentication, RateLimit, InvalidRequest, UnexpectedResponse}
  {
    RescuesSome(RescuedClasses, e);
    if e.Api? && e.error.Kind() in {NotFound, DeploymentNotFound, Authentication, RateLimit, InvalidRequest, UnexpectedResponse} {
      var k := e.error.Kind();
      var i := if k == NotFound then 0 else if k == DeploymentNotFound then 1 else if k == Authentication then 2
        else if k == RateLimit then 3 else if k == InvalidRequest then 4 else 5;
      assert IsA(ClassOf(e), RescuedClasses[i]);
    } else {
      forall i | 0 <= i < |RescuedClasses|
        ensures !IsA(ClassOf(e), RescuedClasses[i])
      {
        assert !IsA(StandardErrorClass, RescuedClasses[i]);
        assert !IsA(ErrorClass, RescuedClasses[i]);
      }
    }
  }

  /** Neither the ArgumentError the source raises for a content-filter refusal nor the intended
      ContentFilterError is rescued, so either way the fallback stops at that model. */
  lemma ContentFilterStopsFallback(d: Details)
    requires !d.Missing? && CodeOf(d) == Some("content_filter")
    ensures !Rescues(RescuedClasses, Completion.HandleError400AsWritten(d))
    ensures !Rescues(RescuedClasses, Completion.HandleError400(d))
  {
    RescuedKinds(Completion.HandleError400AsWritten(d));
    RescuedKinds(Completion.HandleError400(d));
  }

  /** The `each` loop over the outcomes of the remaining attempts, in list order: the first
      success is returned, a rescued failure moves on, any other failure propagates, and
      running out of models raises NotFound. */
  function FallbackFrom<R>(attempts: seq<Outcome<R>>): Outcome<Option<R>> {
    if attempts == [] then Raised(Api(NotFoundError(NoModelsMessage)))
    else if Advances(attempts[0]) then FallbackFrom(attempts[1..])
    else Decision(attempts[0])
  }

  /** The result of `chat` when an attempt ends the loop: its reply, or its exception. */
  function Decision<R>(attempt: Outcome<R>): Outcome<Option<R>> {
    match attempt
    case Returned(v) => Returned(Some(v))
    case Raised(e) => Raised(e)
  }

  /** `chat` over the outcomes its attempts would have: `nil` for an empty model list. */
  function Fallback<R>(attempts: seq<Outcome<R>>): Outcome<Option<R>> {
    if |attempts| == 0 then Returned(None) else FallbackFrom(attempts)
  }

  /** How many models are constructed and called. */
  function Attempts<R>(attempts: seq<Outcome<R>>): (n: nat)
    ensures n <= |attempts|
  {
    if attempts == [] then 0
    else if Advances(attempts[0]) then 1 + Attempts(attempts[1..])
    else 1
  }

  /** An attempt that is not rescued, after rescued failures only, decides the call: a success is
      returned, a failure propagates, and no later model is tried. */
  lemma {:induction false} DecidedAt<R>(attempts: seq<Outcome<R>>, i: nat)
    requires i < |attempts|
    requires forall k :: 0 <= k < i ==> Advances(attempts[k])
    requires !Advances(attempts[i])
    ensures Fallback(attempts) == Decision(attempts[i])
    ensures Attempts(attempts) == i + 1
  {
    if i > 0 {
      assert Advances(attempts[0]);
      DecidedAt(attempts[1..], i - 1);
    }
  }

  /** The first success wins when every earlier model failed with a rescued kind. */
  lemma FirstSuccessWins<R>(attempts: seq<Outcome<R>>, i: nat)
    requires i < |attempts| && attempts[i].Returned?
    requires forall k :: 0 <= k < i ==> Advances(attempts[k])
    ensures Fallback(attempts) == Returned(Some(attempts[i].value))
    ensures Attempts(attempts) == i + 1
  {
    DecidedAt(attempts, i);
  }

  /** A failure of a kind the rescue does not list (Connection, Timeout, ContentFilter, or an
      error from outside the taxonomy) propagates at once and ends the loop. */
  lemma UnrescuedPropagates<R>(attempts: seq<Outcome<R>>, i: nat)
    requires i < |attempts| && attempts[i].Raised?
    requires !(attempts[i].exception.Api? && attempts[i].exception.error.Kind() in
      {NotFound, DeploymentNotFound, Authentication, RateLimit, InvalidRequest, UnexpectedResponse})
    requires forall k :: 0 <= k < i ==> Advances(attempts[k])
    ensures Fallback(attempts) == Raised(attempts[i].exception)
    ensures Attempts(attempts) == i + 1
  {
    RescuedKinds(attempts[i].exception);
    DecidedAt(attempts, i);
  }

  /** When every model of a non-empty list fails with a rescued kind, all are tried and the call
      raises NotFound "No models available". */
  lemma {:induction false} Exhausted<R>(attempts: seq<Outcome<R>>)
    requires |attempts| > 0
    requires forall k :: 0 <= k < |attempts| ==> Advances(attempts[k])
    ensures Fallback(attempts) == Raised(Api(NotFoundError(NoModelsMessage)))
    ensures Attempts(attempts) == |attempts|
  {
    assert Advances(attempts[0]);
    var rest := attempts[1..];
    if rest == [] {
      assert FallbackFrom(attempts) == FallbackFrom(rest);
    } else {
      Exhausted(rest);
      assert FallbackFrom(attempts) == FallbackFrom(rest);
    }
  }

  /** Every outcome of the fallback is one of the above: models are tried in order, each at most
      once; all but the last tried failed with a rescued kind; and the last tried decides the
      result unless it too was rescued, in which case the list was exhausted. */
  lemma {:induction false} AttemptsDecide<R>(attempts: seq<Outcome<R>>)
    ensures Attempts(attempts) <= |attempts|
    ensures |attempts| == 0 <==> Fallback(attempts) == Returned(None)
    ensures |attempts| > 0 ==> Attempts(attempts) > 0
    ensures forall k :: 0 <= k < Attempts(attempts) - 1 ==> Advances(attempts[k])
    ensures var n := Attempts(attempts);
      n > 0 && Advances(attempts[n - 1]) ==> n == |attempts| && Fallback(attempts) == Raised(Api(NotFoundError(NoModelsMessage)))
    ensures var n := Attempts(attempts);
      n > 0 && !Advances(attempts[n - 1]) ==>
        Fallback(attempts) == Decision(attempts[n - 1])
  {
    if attempts != [] && Advances(attempts[0]) {
      var rest := attempts[1..];
      AttemptsDecide(rest);
      assert FallbackFrom(attempts) == FallbackFrom(rest);
      assert forall k :: 1 <= k < |attempts| ==> attempts[k] == rest[k - 1];
    }
  }

  /** What each model's attempt produces: a fresh completion client with the multi-model's
      stream proc, called with the same parameters, against that model's exchange. */
  function AttemptResults(streaming: bool, parameters: Params, replies: seq<Delivery>, streams: seq<StreamDelivery>): (r: seq<Completion.ChatResult>)
    requires |replies| == |streams|
    ensures |r| == |replies|
  {
    if replies == [] then []
    else
      var n := |replies| - 1;
      AttemptResults(streaming, parameters, replies[..n], streams[..n]) + [Completion.ChatSpec(streaming, false, parameters, replies[n], streams[n])]
  }

  lemma {:induction false} AttemptResultsAt(streaming: bool, parameters: Params, replies: seq<Delivery>, streams: seq<StreamDelivery>, i: nat)
    requires |replies| == |streams| && i < |replies|
    ensures AttemptResults(streaming, parameters, replies, streams)[i] == Completion.ChatSpec(streaming, false, parameters, replies[i], streams[i])
  {
    var n := |replies| - 1;
    if i < n {
      AttemptResultsAt(streaming, parameters, replies[..n], streams[..n], i);
    }
  }

  /** Every model is called with the same request body: the caller's parameters, with the stream
      flag added when a stream proc is set. */
  lemma {:induction false} SameRequestBody(streaming: bool, parameters: Params, replies: seq<Delivery>, streams: seq<StreamDelivery>, i: nat)
    requires |replies| == |streams| && i < |replies|
    ensures AttemptResults(streaming, parameters, replies, streams)[i].sent ==
      if streaming then Completion.WithStreamFlag(parameters) else parameters
  {
    AttemptResultsAt(streaming, parameters, replies, streams, i);
  }

  function Outcomes(results: seq<Completion.ChatResult>): (o: seq<Outcome<Completion.Reply>>)
    ensures |o| == |results| && forall i :: 0 <= i < |o| ==> o[i] == results[i].outcome
  {
    seq(|results|, i requires 0 <= i < |results| => results[i].outcome)
  }

  /** `DecidedAt` over the attempts' results. */
  lemma DecidedResult(results: seq<Completion.ChatResult>, i: nat)
    requires i < |results|
    requires forall k :: 0 <= k < i ==> Advances(results[k].outcome)
    requires !Advances(results[i].outcome)
    ensures Fallback(Outcomes(results)) == Decision(results[i].outcome)
    ensures Attempts(Outcomes(results)) == i + 1
  {
    DecidedAt(Outcomes(results), i);
  }

  /** `Exhausted` over the attempts' results. */
  lemma ExhaustedResults(results: seq<Completion.ChatResult>)
    requires |results| > 0
    requires forall k :: 0 <= k < |results| ==> Advances(results[k].outcome)
    ensures Fallback(Outcomes(results)) == Raised(Api(NotFoundError(NoModelsMessage)))
    ensures Attempts(Outcomes(results)) == |results|
  {
    Exhausted(Outcomes(results));
  }

  class CompletionMultiModel {
    const models: seq<ModelRef>
    var stream: Option<Sink>

    constructor (models: seq<ModelRef>, stream: Option<Sink>)
      ensures this.models == models && this.stream == stream
    {
      this.models := models;
      this.stream := stream;
    }

    /** The `stream=` writer: later calls stream to the new proc (or stop streaming for `nil`). */
    method SetStream(stream: Option<Sink>)
      modifies this
      ensures this.stream == stream
    {
      this.stream := stream;
    }

    /** `OpenAIAPI::Completion.new(model, stream: @stream)`: a new client for the model, with the
        multi-model's stream proc and without raw mode. */
    static method ClientFor(model: ModelRef, sink: Option<Sink>) returns (client: Completion.Client)
      ensures fresh(client)
      ensures client.name == model.name && client.stream == sink && !client.raw
    {
      client := new Completion.Client(model, sink, false);
    }

    /** One iteration's call: `ClientFor(model, @stream).chat(parameters)`, recorded with the
        request body it sent and what it passed to the stream proc. */
    static method Attempt(models: seq<ModelRef>, sink: Option<Sink>, parameters: Params,
                          replies: seq<Delivery>, streams: seq<StreamDelivery>, i: nat)
      returns (call: Completion.ChatResult)
      requires |replies| == |models| && |streams| == |models| && i < |models|
      ensures call == AttemptResults(sink.Some?, parameters, replies, streams)[i]
    {
      var client := ClientFor(models[i], sink);
      var outcome, body, forwarded := client.Chat(parameters, replies[i], streams[i]);
      call := Completion.ChatResult(outcome, body, forwarded);
      AttemptResultsAt(sink.Some?, parameters, replies, streams, i);
    }

    /** `chat`: `nil` for an empty model list; otherwise the fallback over the models' attempts,
        in list order. `calls` records each model constructed and called: its outcome, the request
        body it sent and what it passed to the stream proc. */
    method Chat(parameters: Params, replies: seq<Delivery>, streams: seq<StreamDelivery>)
      returns (result: Outcome<Option<Completion.Reply>>, calls: seq<Completion.ChatResult>)
      requires |replies| == |models| && |streams| == |models|
      ensures var results := AttemptResults(stream.Some?, parameters, replies, streams);
        && result == Fallback(Outcomes(results))
        && calls == results[..Attempts(Outcomes(results))]
    {
      ghost var results := AttemptResults(stream.Some?, parameters, replies, streams);
      calls := [];
      if |models| == 0 {
        result := Returned(None);
        return;
      }
      var i := 0;
      while i < |models|
        invariant 0 <= i <= |models|
        invariant calls == results[..i]
        invariant forall k :: 0 <= k < i ==> Advances(results[k].outcome)
      {
        var call := Attempt(models, stream, parameters, replies, streams, i);
        assert results[..i + 1] == results[..i] + [results[i]];
        calls := calls + [call];
        if !Advances(call.outcome) {
          DecidedResult(results, i);
          result := Decision(call.outcome);
          return;
        }
        i := i + 1;
      }
      ExhaustedResults(results);
      result := Raised(Api(NotFoundError(NoModelsMessage)));
    }
  }
}
