# HttpTestUtils mock HTTP client, modelled in Dafny

This project models the response-production logic of the HttpTestUtils mock `HttpClient`.
A test configures canned responses ahead of time, and the client answers each request from them without any network I/O.

- **Response descriptor** `HttpResponseContent<TContent>` (module `ResponseContents`): an immutable pair of a status code and a content value. It is modelled as the datatype `ResponseContent`, with `Create` standing for its constructor.
- **Fixed strategy** (`SetupHttpClientWithJsonResponse`, both overloads): every request gets the configured status code and the configured content, serialized again on each request. Content and serializer are values here, so in the model every request gets the same body. The handler holds a pure creation function (`FixedCreator`), so a request changes nothing.
- **Sequenced strategy** (`SetupHttpClientWithMultipleJsonResponses`): the responses are copied into a FIFO queue (class `SequencedResponder`, field `queue: seq<...>`). Each request dequeues the head. A request on an empty queue fails with `InvalidOperationException`. The pure functions `Pop`, `SequencedStep`, `Run` and `Remaining` specify that state machine, and the class methods are proved against them.
- **Message handler** `TestHttpMessageHandler.SendAsync`: a pass-through that returns whatever its creation function returns for the request, exceptions included.

Exceptions are values: `Result<T> = Ok(value) | Err(error: Exception)`.
The JSON serializer (`JsonConvert.SerializeObject`) is a parameter `serialize: T -> Result<string>`. It is otherwise uninterpreted and may throw.
The module `ClientScenarios` states what a caller sees over a series of requests (`SendAll`) and restates the library's own test situations as contracts.

## Model

| member | source | states |
|---|---|---|
| `ResponseContents.Create` | src/HttpTestUtils/HttpTestUtils/HttpResponseContent.cs:13-17 | `StatusCode` equals the `statusCode` argument and `Content` equals the `content` argument; it is total (no requires, no failure path) for every status code and content |
| `ResponseContents.CreateInjective` | src/HttpTestUtils/HttpTestUtils/HttpResponseContent.cs:13-17 | value semantics of the get-only properties: two descriptors are equal exactly when built from equal arguments (both directions) |
| `ResponseContents.CreateFromProperties` | src/HttpTestUtils/HttpTestUtils/HttpResponseContent.cs:7-8 | a descriptor is fully described by its two read-only properties: rebuilding it from them gives the same value |
| `HttpClientMock.ToResponseMessage` | src/HttpTestUtils/HttpTestUtils/HttpClientMock.cs:46-51 | the response message has the descriptor's status code and the serialized content as body; it fails exactly when serialization throws, with that same exception |
| `HttpClientMock.FixedCreator` | src/HttpTestUtils/HttpTestUtils/HttpClientMock.cs:21-22 | the fixed strategy's creation function gives, for every request, the response message of the configured descriptor |
| `HttpClientMock.Pop` | src/HttpTestUtils/HttpTestUtils/HttpClientMock.cs:44 | dequeue succeeds exactly when the queue is non-empty; then the head followed by what is left is the old queue; otherwise it fails with `InvalidOperationException` and leaves the queue unchanged |
| `HttpClientMock.SequencedStep` | src/HttpTestUtils/HttpTestUtils/HttpClientMock.cs:42-54 | one sequenced request on a non-empty queue answers with the head's response message and leaves exactly the tail, one element shorter; on an empty queue it fails with the empty-queue exception |
| `HttpClientMock.Run` | src/HttpTestUtils/HttpTestUtils/HttpClientMock.cs:42-54 | n successive sequenced requests produce exactly n results |
| `HttpClientMock.Remaining` | src/HttpTestUtils/HttpTestUtils/HttpClientMock.cs:44 | requests never add to the queue: what is left after n requests is no longer than the configured queue |
| `HttpClientMock.RunInOrder` | src/HttpTestUtils/HttpTestUtils/HttpClientMock.cs:27-44 | request i answers with the i-th configured response for i < k; every request from the (k+1)-th on fails with `InvalidOperationException` |
| `HttpClientMock.ExhaustedRequestFails` | src/HttpTestUtils/HttpTestUtils/HttpClientMock.cs:44 | with k responses configured, request k+1 fails; with none, the first request fails |
| `HttpClientMock.RemainingIsSuffix` | src/HttpTestUtils/HttpTestUtils/HttpClientMock.cs:44 | after n requests the queue is the configured responses minus the first min(n, k), in order |
| `HttpClientMock.RunSnoc` | src/HttpTestUtils/HttpTestUtils/HttpClientMock.cs:42-54 | one more request appends one result, computed from the queue left so far, and pops one more element |
| `HttpClientMock.SuccessesBounded` | src/HttpTestUtils/HttpTestUtils/HttpClientMock.cs:44 | however many requests are made, the number of successful ones never exceeds the number of configured responses |
| `HttpClientMock.SuccessesExact` | src/HttpTestUtils/HttpTestUtils/HttpClientMock.cs:44 | when every configured content serializes, exactly min(n, k) of n requests succeed |
| `HttpClientMock.SequencedResponder.constructor` | src/HttpTestUtils/HttpTestUtils/HttpClientMock.cs:34-39 | after the enqueue loop the queue equals the input responses in enumeration order |
| `HttpClientMock.SequencedResponder.Enqueue` | src/HttpTestUtils/HttpTestUtils/HttpClientMock.cs:38 | adds the response at the tail and changes nothing else |
| `HttpClientMock.SequencedResponder.Dequeue` | src/HttpTestUtils/HttpTestUtils/HttpClientMock.cs:44 | result and new queue are those of `Pop` on the old queue |
| `HttpClientMock.SequencedResponder.CreateResponse` | src/HttpTestUtils/HttpTestUtils/HttpClientMock.cs:42-54 | the handler lambda: result and new queue are those of `SequencedStep` on the old queue; the request is ignored |
| `HttpClientMock.TestHttpMessageHandler.constructor` | src/HttpTestUtils/HttpTestUtils/HttpClientMock.cs:66-69 | the handler keeps the creation function it was given |
| `HttpClientMock.TestHttpMessageHandler.SendAsync` | src/HttpTestUtils/HttpTestUtils/HttpClientMock.cs:76-79 | returns exactly what the creation function returns for the request, exceptions unwrapped; with a pure function nothing changes, and with the sequenced one only its queue changes, as `SequencedStep` says |
| `HttpClientMock.SetupHttpClientWithJsonResponse` | src/HttpTestUtils/HttpTestUtils/HttpClientMock.cs:19-25 | a fresh handler whose creation function is the fixed strategy for the given descriptor |
| `HttpClientMock.SetupHttpClientWithStatusAndJsonResponse` | src/HttpTestUtils/HttpTestUtils/HttpClientMock.cs:14-17 | the same handler as the descriptor overload applied to `Create(statusCode, responseBody)` |
| `HttpClientMock.SetupHttpClientWithMultipleJsonResponses` | src/HttpTestUtils/HttpTestUtils/HttpClientMock.cs:32-57 | a fresh handler over a fresh queue that holds the responses in order, with the given serializer |
| `ClientScenarios.SendAll` | src/HttpTestUtils/HttpTestUtils.Tests/HttpClientMockTests.cs:63-66 | successive requests through a handler: with a pure creation function, result i is that function applied to request i; with the sequenced one, the results are `Run` of the old queue and the queue is `Remaining` of it |
| `ClientScenarios.RepeatedFixedRequests` | src/HttpTestUtils/HttpTestUtils.Tests/HttpClientMockTests.cs:13-24 | every request to a fixed mock, whatever the request and however many came before, gets the configured status code and the serialized content |
| `ClientScenarios.RepeatedSequencedRequests` | src/HttpTestUtils/HttpTestUtils/HttpClientMock.cs:27-57 | over any series of requests, request i gets the i-th response while i < k, later requests fail with the empty-queue exception, and the queue ends as the responses not yet handed out |
| `ClientScenarios.ThreeResponsesThenExhausted` | src/HttpTestUtils/HttpTestUtils.Tests/HttpClientMockTests.cs:27-69 | ids 1, 2, 3 come back in order with statuses 200, 200, 202, and a fourth request fails with `InvalidOperationException` |
| `ClientScenarios.EmptySequenceFailsFirst` | src/HttpTestUtils/HttpTestUtils/HttpClientMock.cs:34-44 | with no responses configured the first request fails with the empty-queue exception |
| `ClientScenarios.PassThrough` | src/HttpTestUtils/HttpTestUtils/HttpClientMock.cs:76-79 | a handler over any pure creation function returns exactly that function's result, so an exception it throws comes back unwrapped |

## Left out

- `HttpClient`, `GetAsync`, `HttpResponseMessage` and `StringContent` are .NET transport types. The handler stands for the client, a request is a plain (verb, uri, body) value, and a response is a plain (status code, body) value.
- `HttpResponseMessage` rejects status codes outside 0 to 999 with `ArgumentOutOfRangeException`. That .NET check is not part of this model, so every integer status code yields a response.
- `JsonConvert.SerializeObject` is the serializer parameter, otherwise uninterpreted. The tests' `DeserializeObject`, and so any JSON round trip, are not modelled.
- Content values and the serializer are modelled as values. The source keeps a reference to the content object and serializes it again on every request, reading the global `JsonConvert.DefaultSettings` each time. So a mutable content object, or settings changed between requests, can change the body there. The model does not capture that aliasing.
- Null references are not modelled, because datatype values cannot be null. In the source a null `responses` throws `NullReferenceException` at setup, in the `foreach`. A null descriptor given to `SetupHttpClientWithJsonResponse` sets up without error, and then every request throws `NullReferenceException` at `response.StatusCode`. A null element of `responses` is dequeued and then throws at `responseContent.StatusCode`, so the failing request still uses up a queue slot.
- The UTF-8 encoding and the `application/json` media type of the body are constant metadata and are not modelled.
- `async`/`Task`/`await` and the unused `CancellationToken`: every call is modelled as synchronous.
- Concurrent requests against one sequenced mock: the source's queue has no locking, and the model assumes one request at a time.
- The `onRequestCallback` setup overload used by the tests (HttpClientMockTests.cs lines 74 and 106) is not in HttpClientMock.cs. Only the handler's pass-through of a pure creation function (`PassThrough`) covers it.
- A raw, pre-encoded body variant does not exist in the source and is not modelled.
- The source's setup takes an `IEnumerable`. The model takes a finite `seq`, which is what the `foreach` enumerates.
- The xUnit harness and the test-only `Person` class are not modelled. `ThreeResponsesThenExhausted` uses the person ids as contents.
