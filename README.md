# nats-jetstream-http-connector: the delivery pipeline in Dafny

This project models the message-to-HTTP delivery pipeline of the NATS JetStream HTTP connector
(`cmd/nats-jetstream-http-connector/main.go`). The connector attaches to a durable JetStream consumer,
creating it if needed. Each pushed message takes a token from a bounded concurrency gate and is
POSTed to an HTTP endpoint with bounded immediate retries. The response body goes to a response
topic and failures go to an error topic. The message is acknowledged only when every step before
the acknowledgement succeeded within the per-message deadline.

Modules, one per component of `main.go`:

- `Wrappers`: `Option` (Go's nil) and `Result`.
- `Decimal`: `strconv.Atoi` on a 64-bit platform, as a signed-decimal parser with the `int` range check. Also the `%v` text of an `int`, with the round trip between the two.
- `Connector`: the connector metadata, header maps, messages and the one-minute deadline.
- `Concurrency`: `initialiseConcurrency` (`Capacity`) and the semaphore channel (`ConcurrencyGate`, a class with `inFlight` and `capacity`).
- `Consumer`: the attach-or-create decision of `consumeMessage` and the consumer configuration it creates.
- `Headers`: the injected headers and the in-place `maps.Copy` overlay (a loop over the inbound keys).
- `Retry`: `HandleHTTPRequest` as a loop method (`HandleHttpRequest`), proved equal to a pure specification (`Outcome`, `AttemptsMade`). The lemmas state what the loop promises.
- `Pipeline`: `handleHTTPRequest`, `responseHandler` and `errorHandler` as functions that return the trace of effects: HTTP attempts, publishes and the ack.
- `Dispatch`: the push callback and its handling task. `Dispatcher` is a class holding the gate, the tasks that hold a token, and the delivery waiting on a full gate.
- `Scenarios`: whole-message runs on concrete endpoints.

The environment is an input to the model. This covers each attempt's answer (a function from the
attempt number to a transport error, a nil response or a status), whether the request can be built,
the body read, the response publish, whether the deadline has passed, and the ack result.

Points where the code's behaviour is easy to miss, all reproduced as written:

- A status of exactly 300 on the last attempt is returned as success. The loop's test is `< 300`, but the test after the loop is `> 300`. A 300 on an earlier attempt is retried.
- The failure text is `request returned failure: <status>. http_endpoint: <url>, source: <name>`. It names the last status, not the number of retries.
- The empty-response error depends only on the last attempt. `resp` is overwritten by every attempt, so responses from earlier attempts are forgotten.
- An unset response topic, or a failed response publish, leaves the message unacknowledged and unreported to the error topic. The broker later redelivers it.
- The ack-wait is fixed at one minute plus one second, and the per-message deadline at one minute. `ACKWAIT` is read but never used.

## Model

| member | source | states |
|---|---|---|
| `Decimal.Atoi` | cmd/nats-jetstream-http-connector/main.go:89 | only digits, or a '+' or '-' followed by digits, are accepted; their value (negated after '-') is returned when it fits Go's 64-bit `int`, otherwise the text is rejected |
| `Decimal.FormatInt` | cmd/nats-jetstream-http-connector/main.go:320 | the `%v` text of a status is non-empty and starts with '-' exactly for negative values |
| `Decimal.AtoiFormatInt` | cmd/nats-jetstream-http-connector/main.go:89 | Atoi reads back every `int` written in decimal (round trip) |
| `Concurrency.Capacity` | cmd/nats-jetstream-http-connector/main.go:84-98 | capacity is at least 1; it is the parsed value when `CONCURRENT` parses to at least 1, else 1 |
| `Concurrency.CapacityOfDecimal` | cmd/nats-jetstream-http-connector/main.go:86-96 | every capacity from 1 to the largest `int`, written in decimal, configures exactly that capacity |
| `Concurrency.CapacityUnset` | cmd/nats-jetstream-http-connector/main.go:86-87 | an empty `CONCURRENT` gives capacity 1 |
| `Concurrency.ConcurrencyGate.constructor` | cmd/nats-jetstream-http-connector/main.go:97 | the channel starts empty with capacity `Capacity(CONCURRENT)` |
| `Concurrency.ConcurrencyGate.TryAcquire` | cmd/nats-jetstream-http-connector/main.go:146 | a send succeeds exactly when the channel is not full, adds one token and keeps `inFlight <= capacity` |
| `Concurrency.ConcurrencyGate.Release` | cmd/nats-jetstream-http-connector/main.go:154 | a receive removes one token and leaves room for a send |
| `Consumer.ResolveConsumer` | cmd/nats-jetstream-http-connector/main.go:121-140 | attaching creates nothing; otherwise the consumer is created with the durable name, explicit ack, filter `<topic>.input` and ack-wait 61 s; a creation error is returned wrapped with "create consumer: " |
| `Consumer.AckWaitOutlastsDeadline` | cmd/nats-jetstream-http-connector/main.go:121-130 | the created consumer's ack-wait is 61 s, longer than the one-minute per-message deadline |
| `Consumer.FilterSubjectExtendsTopic` | cmd/nats-jetstream-http-connector/main.go:129 | the filter subject is the topic followed by ".input" |
| `Consumer.ConsumeMessage` | cmd/nats-jetstream-http-connector/main.go:113-178 | start-up returns the creation error first, then the callback-registration error, else nil |
| `Consumer.CreationFailureIsFatal` | cmd/nats-jetstream-http-connector/main.go:132-134 | a creation failure is returned whatever the callback registration would have given |
| `Headers.Injected` | cmd/nats-jetstream-http-connector/main.go:185-191 | the header literal has exactly the five injected keys, each with a single value |
| `Headers.Merged` | cmd/nats-jetstream-http-connector/main.go:185-193 | the merged keys are exactly the five injected keys plus the inbound keys; inbound values win, and the other injected keys keep their literal value |
| `Headers.MergeHeaders` | cmd/nats-jetstream-http-connector/main.go:185-193 | after the in-place copy, each inbound key has its inbound values, each injected key not sent inbound keeps its configured value, no other key appears, and the result equals the right-biased union |
| `Headers.InjectedKeptWhenNotOverridden` | cmd/nats-jetstream-http-connector/main.go:185-191 | each of the five injected headers that the message does not carry has its single configured value |
| `Retry.FirstSuccess` | cmd/nats-jetstream-http-connector/main.go:309-311 | finds the least attempt below the bound whose status is in [200, 300), or reports that there is none |
| `Retry.FinalVerdict` | cmd/nats-jetstream-http-connector/main.go:315-322 | the last response is accepted exactly when its status is in [200, 300], keeping that status; no response gives the empty-response error |
| `Retry.Outcome` | cmd/nats-jetstream-http-connector/main.go:282-322 | a returned status lies in [200, 300], and 300 only when it is the last attempt's; a failure status is the last attempt's; a build failure carries its cause |
| `Retry.AttemptsMade` | cmd/nats-jetstream-http-connector/main.go:283-311 | at most MaxRetries + 1 requests; none exactly when MaxRetries is negative or the request cannot be built; stopping before the last attempt happens only on a 2xx answer |
| `Retry.ErrorText` | cmd/nats-jetstream-http-connector/main.go:285-320 | a build failure's text ends with its cause; the other two texts end with the endpoint and source; a failure status stands in decimal right after "request returned failure: " |
| `Retry.HandleHttpRequest` | cmd/nats-jetstream-http-connector/main.go:280-323 | the retry loop returns `Outcome` and sends `AttemptsMade` requests |
| `Retry.ZeroRetriesSendOnce` | cmd/nats-jetstream-http-connector/main.go:283 | MaxRetries 0 sends exactly one request |
| `Retry.SuccessAtAttempt` | cmd/nats-jetstream-http-connector/main.go:309-311 | the first 2xx answer, at attempt k, is returned without error after exactly k + 1 requests |
| `Retry.BuildErrorStopsAtOnce` | cmd/nats-jetstream-http-connector/main.go:285-288 | a request that cannot be built is an immediate error and no request is sent |
| `Retry.NegativeRetriesGiveEmptyResponse` | cmd/nats-jetstream-http-connector/main.go:282-317 | a negative MaxRetries sends nothing and gives the empty-response error |
| `Retry.LastAttemptWithoutResponse` | cmd/nats-jetstream-http-connector/main.go:298-317 | with no 2xx answer, a last attempt without a response gives the empty-response error after all attempts, whatever earlier attempts got |
| `Retry.OnlyLastAttemptDecides` | cmd/nats-jetstream-http-connector/main.go:298-322 | with no 2xx answer, two endpoints that agree on the last attempt give the same outcome |
| `Retry.FailureStatusOnLastAttempt` | cmd/nats-jetstream-http-connector/main.go:319-320 | a last status below 200 or above 300 is a failure whose text carries the status in decimal |
| `Retry.Status300OnLastAttempt` | cmd/nats-jetstream-http-connector/main.go:319-322 | a last status of exactly 300 is returned as success after all attempts |
| `Retry.Status300IsRetried` | cmd/nats-jetstream-http-connector/main.go:309-312 | a 300 before the last attempt does not end the loop |
| `Retry.DeliveredRange` | cmd/nats-jetstream-http-connector/main.go:309-322 | a returned response has a status in [200, 300], and 300 only after all attempts |
| `Pipeline.ErrorHandler` | cmd/nats-jetstream-http-connector/main.go:259-277 | publishes the error text verbatim to the error topic exactly when one is set, at most once; its publish result changes nothing |
| `Pipeline.ResponseHandler` | cmd/nats-jetstream-http-connector/main.go:233-257 | reports success exactly when a response topic is set and the publish succeeded; publishes the body verbatim only to that topic |
| `Pipeline.Route` | cmd/nats-jetstream-http-connector/main.go:196-229 | after the retry loop no request is sent; a failed call is never acked; an acked message had exactly its body published to the response topic and then the ack |
| `Pipeline.HandleMessage` | cmd/nats-jetstream-http-connector/main.go:181-231 | the trace starts with exactly the retry loop's attempts, each a POST of the message with the merged headers, and holds no request after them; an acked message had a successful call and an ack |
| `Pipeline.AttemptsInTrace` | cmd/nats-jetstream-http-connector/main.go:195 | the trace opens with exactly the requests the retry loop sends, each a POST of the payload with the merged headers, and holds no other request |
| `Pipeline.AckedExactlyWhen` | cmd/nats-jetstream-http-connector/main.go:195-229 | a message is acked if and only if the HTTP call succeeded, the body was read, a response topic is set, the response publish succeeded, the deadline had not passed and the ack succeeded |
| `Pipeline.AckAttemptedExactlyWhen` | cmd/nats-jetstream-http-connector/main.go:213-225 | the ack is attempted if and only if every step before it succeeded within the deadline |
| `Pipeline.HttpFailureReported` | cmd/nats-jetstream-http-connector/main.go:195-200 | an HTTP failure is reported once through the error handler with its text, and the message is not acked |
| `Pipeline.BodyReadFailureReported` | cmd/nats-jetstream-http-connector/main.go:206-211 | a body-read failure is reported once through the error handler, and the message is not acked |
| `Pipeline.UnsetResponseTopicDropsMessage` | cmd/nats-jetstream-http-connector/main.go:213-238 | without a response topic, a successful call is neither published, reported nor acked |
| `Pipeline.DeadlinePassedLeavesUnacked` | cmd/nats-jetstream-http-connector/main.go:218-223 | once the deadline has passed, the response is published but the message is not acked |
| `Pipeline.AckFailureReported` | cmd/nats-jetstream-http-connector/main.go:225-229 | a failed ack is reported through the error handler and the message counts as not acked |
| `Scenarios.ThirdAttemptSucceeds` | cmd/nats-jetstream-http-connector/main.go:181-231 | MaxRetries 2 against 500, 500, 200: three requests, body published, message acked |
| `Scenarios.RetriesExhausted` | cmd/nats-jetstream-http-connector/main.go:280-323 | MaxRetries 1 against 500, 500: two requests, the status-500 failure text is published to the error topic, no ack |
| `Scenarios.NoResponseTopicNoAck` | cmd/nats-jetstream-http-connector/main.go:213-238 | no response topic and a 200 answer: one request, nothing published, no ack |
| `Dispatch.ProcessMessage` | cmd/nats-jetstream-http-connector/main.go:181-231 | the header-merge loop and the retry loop, composed with the routing, produce exactly the trace `HandleMessage` specifies |
| `Dispatch.Dispatcher.constructor` | cmd/nats-jetstream-http-connector/main.go:84-98 | no task runs and no delivery waits; the gate has capacity `Capacity(CONCURRENT)` |
| `Dispatch.Dispatcher.Deliver` | cmd/nats-jetstream-http-connector/main.go:144-149 | a token is taken before the task is spawned; on a full gate the callback waits with the message; running tasks never exceed the capacity |
| `Dispatch.Dispatcher.Complete` | cmd/nats-jetstream-http-connector/main.go:149-155 | a task handles its message as `HandleMessage` specifies, then gives its token back, and a waiting delivery is spawned at once |
| `Dispatch.TwoSlotsThreeMessages` | cmd/nats-jetstream-http-connector/main.go:144-155 | with capacity 2, the third of three messages waits until the first completes and is spawned then |

## Left out

- Retry.HandleHttpRequest: does not model the wrap-around of Go's 64-bit loop counter. With `MaxRetries` equal to the largest `int` and no 2xx answer, `attempt++` wraps to the smallest `int` and the Go loop never ends on its count. The model stops after MaxRetries + 1 attempts and judges the last one.
- Retry.AttemptsMade: the same bound, MaxRetries + 1, is stated for `MaxRetries` equal to the largest `int`, where the Go loop does not stop on its count. `Retry.LastAttemptWithoutResponse`, `Retry.FailureStatusOnLastAttempt`, `Retry.Status300OnLastAttempt` and `Retry.OnlyLastAttemptDecides` describe a last attempt that, at that one value, Go never reaches.

- Process bootstrap (`mainErr`, `pkg/service/*`): environment reads, `nats.Connect`, whose error is ignored, metadata parsing, servers, signals and graceful shutdown are plumbing around the pipeline.
- Metrics (`pkg/metrics`) and all logging: they have no effect on any outcome.
- Real HTTP, NATS and clock I/O: each attempt's answer, the body read, the publish and ack results, and deadline expiry are inputs. Cancelling an attempt at the deadline appears as a transport-error answer.
- Closing response bodies: earlier attempts' bodies are never closed in the code, and the model has no resources.
- `http.Client.Do` returning a response together with an error (a failed redirect check): a transport error is modelled with a nil response.
- Header-key canonicalisation by `req.Header.Add`: the request carries the merged map as it is.
- Goroutine scheduling: the dispatcher runs one step at a time. The tasks that hold a token are a sequence and complete in any order the caller picks.
- The wait on the root context's `Done` channel at shutdown, after which the code only logs (its unsubscribe call is commented out): `ConsumeMessage` returns nil for that path.
- The allocation of a channel with a very large capacity: only the capacity value is modelled.
- `Decimal.Atoi`: states the parse semantics of `strconv.Atoi`, not its byte-by-byte fast path.
- Go strings and byte slices are both Dafny strings, one character per byte, because the code converts between them without re-encoding.
- The `errorHandler` publish result: it is only logged, so the model takes no input for it.
