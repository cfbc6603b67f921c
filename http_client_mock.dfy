/**
 * The mock HTTP client: a message handler that answers every request from a
 * response-creation function, and the setup operations that build that
 * function either from one fixed descriptor or from a queue of descriptors.
 */
module HttpClientMock {
  import opened Wrappers
  import opened ResponseContents

  /** An outgoing request. Neither strategy looks at it; a creation function may. */
  datatype Request = Request(verb: string, uri: string, body: string)

  /** A response message reduced to its status code and its (JSON) body text. */
  datatype Response = Response(statusCode: StatusCode, body: string)

  /** The message `Queue<T>.Dequeue` throws with when the queue is empty. */
  const QueueEmptyMessage: string := "Queue empty."

  /** The exception a request on an exhausted sequenced mock fails with. */
  const QueueEmpty: Exception := InvalidOperationException(QueueEmptyMessage)

  // ---------------------------------------------------------------------------
  // Turning a descriptor into a response message
  // ---------------------------------------------------------------------------

  /**
   * The response message for a descriptor: its status code and the serialized
   * content as body. The serializer stands for the JSON library; an exception
   * it throws reaches the caller unchanged.
   */
  function ToResponseMessage<T>(response: ResponseContent<T>, serialize: T -> Result<string>): (r: Result<Response>)
    ensures r.Ok? <==> serialize(response.content).Ok?
    ensures r.Ok? ==> r.value.statusCode == response.statusCode
    ensures r.Ok? ==> r.value.body == serialize(response.content).value
    ensures r.Err? ==> r.error == serialize(response.content).error
  {
    match serialize(response.content)
    case Ok(body) => Ok(Response(response.statusCode, body))
    case Err(e) => Err(e)
  }

  // ---------------------------------------------------------------------------
  // Fixed strategy
  // ---------------------------------------------------------------------------

  /**
   * The creation function of the fixed strategy: it ignores the request and
   * builds the same response message from the same descriptor on every call.
   */
  function FixedCreator<T>(response: ResponseContent<T>, serialize: T -> Result<string>): (create: Request -> Result<Response>)
    ensures forall request :: create(request) == ToResponseMessage(response, serialize)
  {
    _ => ToResponseMessage(response, serialize)
  }

  // ---------------------------------------------------------------------------
  // Sequenced strategy: the specification
  // ---------------------------------------------------------------------------

  /** `Queue<T>.Dequeue` on the queue's contents: the head and what is left, or the empty-queue exception. */
  function Pop<T>(queue: seq<T>): (out: (Result<T>, seq<T>))
    ensures out.0.Ok? <==> queue != []
    ensures out.0.Ok? ==> [out.0.value] + out.1 == queue
    ensures out.0.Err? ==> out.0.error == QueueEmpty && out.1 == queue
  {
    if queue == [] then (Err(QueueEmpty), queue) else (Ok(queue[0]), queue[1..])
  }

  /**
   * One request to a sequenced mock: dequeue the head, then build its response
   * message. The head is consumed even when serializing its content throws.
   */
  function SequencedStep<T>(queue: seq<ResponseContent<T>>, serialize: T -> Result<string>): (out: (Result<Response>, seq<ResponseContent<T>>))
    ensures queue == [] ==> out == (Err(QueueEmpty), queue)
    ensures queue != [] ==> out.0 == ToResponseMessage(queue[0], serialize)
    ensures queue != [] ==> |out.1| == |queue| - 1 && queue == [queue[0]] + out.1
  {
    var (head, rest) := Pop(queue);
    match head
    case Ok(response) => (ToResponseMessage(response, serialize), rest)
    case Err(e) => (Err(e), rest)
  }

  /** The results of `n` successive requests to a sequenced mock whose queue holds `queue`. */
  function Run<T>(queue: seq<ResponseContent<T>>, serialize: T -> Result<string>, n: nat): (results: seq<Result<Response>>)
    ensures |results| == n
    decreases n
  {
    if n == 0 then []
    else
      var (r, rest) := SequencedStep(queue, serialize);
      [r] + Run(rest, serialize, n - 1)
  }

  /** The queue left after `n` successive requests. */
  function Remaining<T>(queue: seq<T>, n: nat): (left: seq<T>)
    ensures |left| <= |queue|
    decreases n
  {
    if n == 0 then queue else Remaining(Pop(queue).1, n - 1)
  }

  function Min(a: nat, b: nat): nat { if a <= b then a else b }

  /** The number of requests in `results` that got a response message. */
  function CountOk(results: seq<Result<Response>>): nat
  {
    if results == [] then 0 else (if results[0].Ok? then 1 else 0) + CountOk(results[1..])
  }

  // ---------------------------------------------------------------------------
  // Sequenced strategy: properties
  // ---------------------------------------------------------------------------

  /**
   * Request i (counting from 0) answers with the i-th configured descriptor;
   * every request after the last descriptor fails with the empty-queue exception.
   */
  lemma {:induction false} RunInOrder<T>(queue: seq<ResponseContent<T>>, serialize: T -> Result<string>, n: nat, i: nat)
    requires i < n
    ensures i < |queue| ==> Run(queue, serialize, n)[i] == ToResponseMessage(queue[i], serialize)
    ensures |queue| <= i ==> Run(queue, serialize, n)[i] == Err(QueueEmpty)
  {
    var rest := SequencedStep(queue, serialize).1;
    assert Run(queue, serialize, n) == [SequencedStep(queue, serialize).0] + Run(rest, serialize, n - 1);
    if i > 0 {
      RunInOrder(rest, serialize, n - 1, i - 1);
      if i < |queue| {
        assert rest[i - 1] == queue[i];
      }
    }
  }

  /** With k descriptors configured, request k + 1 fails; with none, the first request fails. */
  lemma ExhaustedRequestFails<T>(queue: seq<ResponseContent<T>>, serialize: T -> Result<string>)
    ensures Run(queue, serialize, |queue| + 1)[|queue|] == Err(QueueEmpty)
    ensures queue == [] ==> Run(queue, serialize, 1) == [Err(QueueEmpty)]
  {
    RunInOrder(queue, serialize, |queue| + 1, |queue|);
  }

  /** After n requests exactly the first min(n, k) descriptors have been removed, in order. */
  lemma {:induction false} RemainingIsSuffix<T>(queue: seq<T>, n: nat)
    ensures Remaining(queue, n) == queue[Min(n, |queue|)..]
  {
    if n > 0 && queue != [] {
      RemainingIsSuffix(queue[1..], n - 1);
      assert queue[1..][Min(n - 1, |queue| - 1)..] == queue[Min(n, |queue|)..];
    }
  }

  /** One more request appends one result and pops one more element. */
  lemma {:induction false} RunSnoc<T>(queue: seq<ResponseContent<T>>, serialize: T -> Result<string>, n: nat)
    ensures Run(queue, serialize, n + 1) == Run(queue, serialize, n) + [SequencedStep(Remaining(queue, n), serialize).0]
    ensures Remaining(queue, n + 1) == SequencedStep(Remaining(queue, n), serialize).1
    decreases n
  {
    if n > 0 {
      var rest := SequencedStep(queue, serialize).1;
      assert rest == Pop(queue).1;
      RunSnoc(rest, serialize, n - 1);
    }
  }

  /** A request that got a response message consumed one configured descriptor: never more successes than descriptors. */
  lemma {:induction false} SuccessesBounded<T>(queue: seq<ResponseContent<T>>, serialize: T -> Result<string>, n: nat)
    ensures CountOk(Run(queue, serialize, n)) <= |queue|
    decreases n
  {
    if n > 0 {
      var results := Run(queue, serialize, n);
      var rest := SequencedStep(queue, serialize).1;
      assert results[1..] == Run(rest, serialize, n - 1);
      SuccessesBounded(rest, serialize, n - 1);
    }
  }

  /** When every content serializes, exactly min(n, k) of n requests succeed. */
  lemma {:induction false} SuccessesExact<T>(queue: seq<ResponseContent<T>>, serialize: T -> Result<string>, n: nat)
    requires forall k :: 0 <= k < |queue| ==> serialize(queue[k].content).Ok?
    ensures CountOk(Run(queue, serialize, n)) == Min(n, |queue|)
    decreases n
  {
    if n > 0 {
      var results := Run(queue, serialize, n);
      var rest := SequencedStep(queue, serialize).1;
      assert results[1..] == Run(rest, serialize, n - 1);
      if queue != [] {
        assert serialize(queue[0].content).Ok?;
        forall k | 0 <= k < |rest| ensures serialize(rest[k].content).Ok? {
          assert rest[k] == queue[k + 1];
        }
      }
      SuccessesExact(rest, serialize, n - 1);
    }
  }

  // ---------------------------------------------------------------------------
  // Sequenced strategy: the queue captured by the handler's lambda
  // ---------------------------------------------------------------------------

  /** The queue of descriptors that the sequenced strategy's creation function captures and drains. */
  class SequencedResponder<T> {
    var queue: seq<ResponseContent<T>>
    const serialize: T -> Result<string>

    /** Copies the configured responses into a fresh queue, in enumeration order. */
    constructor (responses: seq<ResponseContent<T>>, serialize: T -> Result<string>)
      ensures queue == responses
      ensures this.serialize == serialize
    {
      this.serialize := serialize;
      queue := [];
      new;
      for i := 0 to |responses|
        invariant queue == responses[..i]
      {
        Enqueue(responses[i]);
      }
    }

    /** `Queue<T>.Enqueue`: adds at the tail. */
    method Enqueue(response: ResponseContent<T>)
      modifies this
      ensures queue == old(queue) + [response]
    {
      queue := queue + [response];
    }

    /** `Queue<T>.Dequeue`: removes and returns the head, or throws on an empty queue. */
    method Dequeue() returns (head: Result<ResponseContent<T>>)
      modifies this
      ensures (head, queue) == Pop(old(queue))
    {
      if queue == [] {
        head := Err(QueueEmpty);
      } else {
        head := Ok(queue[0]);
        queue := queue[1..];
      }
    }

    /** The creation function of the sequenced strategy: dequeue, then build the response message. */
    method CreateResponse(request: Request) returns (r: Result<Response>)
      modifies this
      ensures (r, queue) == SequencedStep(old(queue), serialize)
    {
      var head := Dequeue();
      match head
      case Ok(response) =>
        r := ToResponseMessage(response, serialize);
      case Err(e) =>
        r := Err(e);
    }
  }

  // ---------------------------------------------------------------------------
  // The message handler
  // ---------------------------------------------------------------------------

  /** The function a handler is created with: a pure one, or the sequenced strategy's stateful one. */
  datatype ResponseCreator<T> =
    | Stateless(create: Request -> Result<Response>)
    | Dequeuing(responder: SequencedResponder<T>)

  /** The handler plugged into the HTTP client: it answers each request with its creation function. */
  class TestHttpMessageHandler<T> {
    const createResponse: ResponseCreator<T>

    constructor (createResponse: ResponseCreator<T>)
      ensures this.createResponse == createResponse
    {
      this.createResponse := createResponse;
    }

    /** The objects a request may change: the sequenced strategy's queue, or nothing. */
    ghost function State(): set<object>
    {
      if createResponse.Dequeuing? then {createResponse.responder} else {}
    }

    /**
     * Sends a request: returns exactly what the creation function returns for
     * it, exceptions included, and changes only what that function changes.
     */
    method SendAsync(request: Request) returns (r: Result<Response>)
      modifies State()
      ensures createResponse.Stateless? ==> r == createResponse.create(request)
      ensures createResponse.Dequeuing? ==>
        (r, createResponse.responder.queue) ==
        SequencedStep(old(createResponse.responder.queue), createResponse.responder.serialize)
    {
      match createResponse
      case Stateless(create) =>
        r := create(request);
      case Dequeuing(responder) =>
        r := responder.CreateResponse(request);
    }
  }

  // ---------------------------------------------------------------------------
  // Setup operations
  // ---------------------------------------------------------------------------

  /** A mock that answers every request with the same descriptor. */
  method SetupHttpClientWithJsonResponse<T>(response: ResponseContent<T>, serialize: T -> Result<string>)
    returns (client: TestHttpMessageHandler<T>)
    ensures fresh(client)
    ensures client.createResponse == Stateless(FixedCreator(response, serialize))
  {
    client := new TestHttpMessageHandler(Stateless(FixedCreator(response, serialize)));
  }

  /** The (status code, body) overload: the descriptor overload applied to `Create(statusCode, responseBody)`. */
  method SetupHttpClientWithStatusAndJsonResponse<T>(statusCode: StatusCode, responseBody: T, serialize: T -> Result<string>)
    returns (client: TestHttpMessageHandler<T>)
    ensures fresh(client)
    ensures client.createResponse == Stateless(FixedCreator(Create(statusCode, responseBody), serialize))
  {
    client := SetupHttpClientWithJsonResponse(Create(statusCode, responseBody), serialize);
  }

  /** A mock that answers request i with the i-th of `responses`, and fails once they are used up. */
  method SetupHttpClientWithMultipleJsonResponses<T>(responses: seq<ResponseContent<T>>, serialize: T -> Result<string>)
    returns (client: TestHttpMessageHandler<T>)
    ensures fresh(client)
    ensures client.createResponse.Dequeuing? && fresh(client.createResponse.responder)
    ensures client.createResponse.responder.queue == responses
    ensures client.createResponse.responder.serialize == serialize
  {
    var responder := new SequencedResponder(responses, serialize);
    client := new TestHttpMessageHandler(Dequeuing(responder));
  }
}
