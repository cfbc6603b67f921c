/**
 * What a caller of the mock client observes over a series of requests, and
 * the situations the library's own tests exercise, stated as contracts.
 */
module ClientScenarios {
  import opened Wrappers
  import opened ResponseContents
  import opened HttpClientMock

  /** Sends the requests one after the other and collects what each call produced. */
  method SendAll<T>(client: TestHttpMessageHandler<T>, requests: seq<Request>) returns (results: seq<Result<Response>>)
    modifies client.State()
    ensures |results| == |requests|
    ensures client.createResponse.Stateless? ==>
      forall i :: 0 <= i < |requests| ==> results[i] == client.createResponse.create(requests[i])
    ensures client.createResponse.Dequeuing? ==>
      var responder := client.createResponse.responder;
      results == Run(old(responder.queue), responder.serialize, |requests|) &&
      responder.queue == Remaining(old(responder.queue), |requests|)
  {
    results := [];
    for i := 0 to |requests|
      invariant |results| == i
      invariant client.createResponse.Stateless? ==>
        forall k :: 0 <= k < i ==> results[k] == client.createResponse.create(requests[k])
      invariant client.createResponse.Dequeuing? ==>
        var responder := client.createResponse.responder;
        results == Run(old(responder.queue), responder.serialize, i) &&
        responder.queue == Remaining(old(responder.queue), i)
    {
      if client.createResponse.Dequeuing? {
        RunSnoc(old(client.createResponse.responder.queue), client.createResponse.responder.serialize, i);
      }
      var r := client.SendAsync(requests[i]);
      results := results + [r];
    }
  }

  /**
   * A fixed mock answers every request, whatever it is and however many came
   * before, with the configured status code and serialized content.
   */
  method RepeatedFixedRequests<T>(statusCode: StatusCode, responseBody: T, serialize: T -> Result<string>, requests: seq<Request>)
    returns (results: seq<Result<Response>>)
    ensures |results| == |requests|
    ensures forall i :: 0 <= i < |results| ==>
      results[i] == ToResponseMessage(Create(statusCode, responseBody), serialize)
    ensures serialize(responseBody).Ok? ==> forall i :: 0 <= i < |results| ==>
      results[i] == Ok(Response(statusCode, serialize(responseBody).value))
  {
    var client := SetupHttpClientWithStatusAndJsonResponse(statusCode, responseBody, serialize);
    results := SendAll(client, requests);
  }

  /**
   * A sequenced mock configured with k responses answers request i (i < k)
   * with the i-th response and fails every later request; its queue then
   * holds exactly the responses not yet handed out.
   */
  method RepeatedSequencedRequests<T>(responses: seq<ResponseContent<T>>, serialize: T -> Result<string>, requests: seq<Request>)
    returns (results: seq<Result<Response>>, left: seq<ResponseContent<T>>)
    ensures |results| == |requests|
    ensures forall i :: 0 <= i < |results| && i < |responses| ==> results[i] == ToResponseMessage(responses[i], serialize)
    ensures forall i :: |responses| <= i < |results| ==> results[i] == Err(QueueEmpty)
    ensures left == responses[Min(|requests|, |responses|)..]
  {
    var client := SetupHttpClientWithMultipleJsonResponses(responses, serialize);
    results := SendAll(client, requests);
    left := client.createResponse.responder.queue;
    forall i | 0 <= i < |results|
      ensures i < |responses| ==> results[i] == ToResponseMessage(responses[i], serialize)
      ensures |responses| <= i ==> results[i] == Err(QueueEmpty)
    {
      RunInOrder(responses, serialize, |requests|, i);
    }
    RemainingIsSuffix(responses, |requests|);
  }

  /**
   * Three responses with ids 1, 2, 3 and statuses OK, OK, Accepted come back
   * in that order over three GET requests, and a fourth request fails with
   * InvalidOperationException.
   */
  method ThreeResponsesThenExhausted(serialize: int -> Result<string>)
    returns (r1: Result<Response>, r2: Result<Response>, r3: Result<Response>, r4: Result<Response>)
    requires serialize(1).Ok? && serialize(2).Ok? && serialize(3).Ok?
    ensures r1 == Ok(Response(200, serialize(1).value))
    ensures r2 == Ok(Response(200, serialize(2).value))
    ensures r3 == Ok(Response(202, serialize(3).value))
    ensures r4.Err? && r4.error.InvalidOperationException?
  {
    var responses := [Create(200, 1), Create(200, 2), Create(202, 3)];
    var client := SetupHttpClientWithMultipleJsonResponses(responses, serialize);
    var get := Request("GET", "http://localhost", "");
    r1 := client.SendAsync(get);
    r2 := client.SendAsync(get);
    r3 := client.SendAsync(get);
    r4 := client.SendAsync(get);
  }

  /** With no responses configured, the very first request fails. */
  method EmptySequenceFailsFirst<T>(serialize: T -> Result<string>, request: Request) returns (r: Result<Response>)
    ensures r == Err(QueueEmpty)
  {
    var client := SetupHttpClientWithMultipleJsonResponses([], serialize);
    r := client.SendAsync(request);
  }

  /**
   * A handler built on any pure creation function returns what that function
   * returns, a thrown exception included, and never wraps it.
   */
  method PassThrough<T>(create: Request -> Result<Response>, request: Request) returns (r: Result<Response>)
    ensures r == create(request)
  {
    var handler := new TestHttpMessageHandler<T>(Stateless(create));
    r := handler.SendAsync(request);
  }
}
