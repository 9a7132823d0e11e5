/**
 * `handleHTTPRequest` with `responseHandler` and `errorHandler`: one message's
 * trip through the HTTP endpoint, the response and error topics and the
 * acknowledgement gate, as the trace of effects it causes.
 */
module Pipeline {
  import opened Wrappers
  import opened Connector
  import opened Headers
  import opened Retry

  /** The POST request every attempt sends. */
  datatype Request = Request(url: string, body: Bytes, headers: Header)

  /** An effect on the outside world, in the order it is attempted. */
  datatype Effect =
    | Post(request: Request)                 // one HTTP attempt
    | Publish(topic: string, payload: Bytes) // a publish to a stream topic
    | Ack                                    // msg.Ack()

  /** The trace of one message's handling and whether the message ended up acknowledged. */
  datatype Handling = Handling(effects: seq<Effect>, acked: bool)

  /**
   * What the world answers while one message is handled: the endpoint's answer
   * to each attempt, whether the request can be built, the body read, the
   * response publish, whether the per-message deadline has passed before the
   * acknowledgement, and the acknowledgement's error.
   */
  datatype Environment = Environment(
    endpoint: nat -> Attempt,
    buildError: Option<string>,
    body: Result<Bytes, string>,
    responsePublished: bool,
    deadlinePassed: bool,
    ackError: Option<string>)

  /**
   * `errorHandler`: publish the error text verbatim to the error topic when one
   * is configured. A failed publish is only logged, so its result changes nothing.
   */
  function ErrorHandler(meta: ConnectorMetadata, text: string): (effects: seq<Effect>)
    ensures |effects| <= 1
    ensures effects != [] <==> meta.errorTopic != ""
    ensures forall e :: e in effects ==> e == Publish(meta.errorTopic, text)
  {
    if |meta.errorTopic| == 0 then [] else [Publish(meta.errorTopic, text)]
  }

  /**
   * `responseHandler`: publish the response body verbatim to the response topic.
   * The first component says whether that succeeded; an unset topic is a failure
   * with nothing published.
   */
  function ResponseHandler(meta: ConnectorMetadata, body: Bytes, published: bool): (r: (bool, seq<Effect>))
    ensures r.0 <==> meta.responseTopic != "" && published
    ensures |r.1| <= 1
    ensures r.1 != [] <==> meta.responseTopic != ""
    ensures forall e :: e in r.1 ==> e == Publish(meta.responseTopic, body)
  {
    if |meta.responseTopic| == 0 then (false, [])
    else (published, [Publish(meta.responseTopic, body)])
  }

  /**
   * The decision chain of `handleHTTPRequest` after `HandleHTTPRequest` has
   * returned `result`. It sends no further request; a failure is never acked;
   * an acked message had its body published to the response topic first.
   */
  function Route(meta: ConnectorMetadata, result: HttpResult, env: Environment): (r: Handling)
    ensures forall e :: e in r.effects ==> !e.Post?
    ensures result.Failed? ==> !r.acked && Ack !in r.effects
    ensures r.acked ==> result.Delivered? && env.body.Success? && !env.deadlinePassed && env.ackError.None?
    ensures r.acked ==> r.effects == [Publish(meta.responseTopic, env.body.value), Ack]
  {
    match result
    case Failed(e) => Handling(ErrorHandler(meta, ErrorText(meta, e)), false)
    case Delivered(_) =>
      match env.body
      case Failure(readError) => Handling(ErrorHandler(meta, readError), false)
      case Success(body) =>
        var (sent, published) := ResponseHandler(meta, body, env.responsePublished);
        if !sent || env.deadlinePassed then Handling(published, false)
        else
          match env.ackError
          case None => Handling(published + [Ack], true)
          case Some(e) => Handling(published + [Ack] + ErrorHandler(meta, e), false)
  }

  /** `n` attempts of the same request. */
  function Posts(request: Request, n: nat): (effects: seq<Effect>)
    ensures |effects| == n
  {
    seq(n, _ => Post(request))
  }

  /** The request built from a message: its payload and the merged headers, to the configured endpoint. */
  function RequestFor(meta: ConnectorMetadata, msg: Message): Request {
    Request(meta.httpEndpoint, msg.data, Merged(meta, msg.headers))
  }

  /**
   * `handleHTTPRequest` for one message: first every attempt of the retry loop,
   * each a POST of the message, then only topic publishes and the ack.
   */
  function HandleMessage(meta: ConnectorMetadata, msg: Message, env: Environment): (h: Handling)
    ensures var n := AttemptsMade(meta.maxRetries, env.endpoint, env.buildError);
      && n <= |h.effects|
      && (forall i :: 0 <= i < n ==> h.effects[i] == Post(RequestFor(meta, msg)))
      && (forall i :: n <= i < |h.effects| ==> !h.effects[i].Post?)
    ensures h.acked ==> Outcome(meta.maxRetries, env.endpoint, env.buildError).Delivered? && Ack in h.effects
  {
    var routed := Route(meta, Outcome(meta.maxRetries, env.endpoint, env.buildError), env);
    Handling(Posts(RequestFor(meta, msg), AttemptsMade(meta.maxRetries, env.endpoint, env.buildError)) + routed.effects,
             routed.acked)
  }

  /** Number of HTTP attempts in a trace. */
  function CountPosts(effects: seq<Effect>): nat {
    if effects == [] then 0
    else CountPosts(effects[..|effects| - 1]) + (if effects[|effects| - 1].Post? then 1 else 0)
  }

  lemma {:induction false} CountPostsAppend(a: seq<Effect>, b: seq<Effect>)
    ensures CountPosts(a + b) == CountPosts(a) + CountPosts(b)
  {
    if b != [] {
      CountPostsAppend(a, b[..|b| - 1]);
      assert (a + b)[..|a + b| - 1] == a + b[..|b| - 1];
    } else {
      assert a + b == a;
    }
  }

  lemma {:induction false} CountPostsOfPosts(request: Request, n: nat)
    ensures CountPosts(Posts(request, n)) == n
  {
    if n > 0 {
      CountPostsOfPosts(request, n - 1);
      assert Posts(request, n)[..n - 1] == Posts(request, n - 1);
    }
  }

  lemma {:induction false} CountPostsNone(effects: seq<Effect>)
    requires forall e :: e in effects ==> !e.Post?
    ensures CountPosts(effects) == 0
  {
    if effects != [] {
      assert effects[|effects| - 1] in effects;
      CountPostsNone(effects[..|effects| - 1]);
    }
  }

  /** The trace holds exactly as many HTTP attempts as `HandleHTTPRequest` makes, all of the same request. */
  lemma AttemptsInTrace(meta: ConnectorMetadata, msg: Message, env: Environment)
    ensures var n := AttemptsMade(meta.maxRetries, env.endpoint, env.buildError);
      && CountPosts(HandleMessage(meta, msg, env).effects) == n
      && forall i :: 0 <= i < n ==> HandleMessage(meta, msg, env).effects[i] == Post(RequestFor(meta, msg))
  {
    var n := AttemptsMade(meta.maxRetries, env.endpoint, env.buildError);
    var routed := Route(meta, Outcome(meta.maxRetries, env.endpoint, env.buildError), env);
    CountPostsNone(routed.effects);
    CountPostsOfPosts(RequestFor(meta, msg), n);
    CountPostsAppend(Posts(RequestFor(meta, msg), n), routed.effects);
  }

  /**
   * The acknowledgement gate: a message is acknowledged exactly when the HTTP call
   * succeeded, its body was read, a response topic is set, the response publish
   * succeeded, the deadline had not passed and the ack itself succeeded.
   */
  lemma AckedExactlyWhen(meta: ConnectorMetadata, msg: Message, env: Environment)
    ensures HandleMessage(meta, msg, env).acked <==>
      && Outcome(meta.maxRetries, env.endpoint, env.buildError).Delivered?
      && env.body.Success?
      && meta.responseTopic != ""
      && env.responsePublished
      && !env.deadlinePassed
      && env.ackError.None?
  {
  }

  /** `msg.Ack()` is called exactly when every condition before it holds. */
  lemma AckAttemptedExactlyWhen(meta: ConnectorMetadata, msg: Message, env: Environment)
    ensures Ack in HandleMessage(meta, msg, env).effects <==>
      && Outcome(meta.maxRetries, env.endpoint, env.buildError).Delivered?
      && env.body.Success?
      && meta.responseTopic != ""
      && env.responsePublished
      && !env.deadlinePassed
  {
    var n := AttemptsMade(meta.maxRetries, env.endpoint, env.buildError);
    var routed := Route(meta, Outcome(meta.maxRetries, env.endpoint, env.buildError), env);
    var posts := Posts(RequestFor(meta, msg), n);
    assert Ack !in posts;
    assert Ack in posts + routed.effects <==> Ack in routed.effects;
  }

  /**
   * A failed HTTP call is reported once through `errorHandler`, with the error's
   * text, and the message is not acknowledged.
   */
  lemma HttpFailureReported(meta: ConnectorMetadata, msg: Message, env: Environment, e: HttpError)
    requires Outcome(meta.maxRetries, env.endpoint, env.buildError) == Failed(e)
    ensures var h := HandleMessage(meta, msg, env);
      var n := AttemptsMade(meta.maxRetries, env.endpoint, env.buildError);
      && !h.acked
      && h.effects[n..] == ErrorHandler(meta, ErrorText(meta, e))
  {
  }

  /** A body that cannot be read is reported like an HTTP failure, with the read error's text. */
  lemma BodyReadFailureReported(meta: ConnectorMetadata, msg: Message, env: Environment)
    requires Outcome(meta.maxRetries, env.endpoint, env.buildError).Delivered?
    requires env.body.Failure?
    ensures var h := HandleMessage(meta, msg, env);
      var n := AttemptsMade(meta.maxRetries, env.endpoint, env.buildError);
      && !h.acked
      && h.effects[n..] == ErrorHandler(meta, env.body.error)
  {
  }

  /**
   * Without a response topic a successful call publishes nothing, is not
   * reported to the error topic and is not acknowledged.
   */
  lemma UnsetResponseTopicDropsMessage(meta: ConnectorMetadata, msg: Message, env: Environment)
    requires meta.responseTopic == ""
    requires Outcome(meta.maxRetries, env.endpoint, env.buildError).Delivered? && env.body.Success?
    ensures var h := HandleMessage(meta, msg, env);
      && !h.acked
      && h.effects == Posts(RequestFor(meta, msg), AttemptsMade(meta.maxRetries, env.endpoint, env.buildError))
  {
  }

  /** Past the deadline the message stays unacknowledged even though its response was published. */
  lemma DeadlinePassedLeavesUnacked(meta: ConnectorMetadata, msg: Message, env: Environment)
    requires env.deadlinePassed
    requires Outcome(meta.maxRetries, env.endpoint, env.buildError).Delivered? && env.body.Success?
    requires meta.responseTopic != "" && env.responsePublished
    ensures var h := HandleMessage(meta, msg, env);
      var n := AttemptsMade(meta.maxRetries, env.endpoint, env.buildError);
      && !h.acked
      && h.effects[n..] == [Publish(meta.responseTopic, env.body.value)]
  {
  }

  /** A failed acknowledgement is reported through `errorHandler` with its text. */
  lemma AckFailureReported(meta: ConnectorMetadata, msg: Message, env: Environment)
    requires Outcome(meta.maxRetries, env.endpoint, env.buildError).Delivered? && env.body.Success?
    requires meta.responseTopic != "" && env.responsePublished && !env.deadlinePassed
    requires env.ackError.Some?
    ensures var h := HandleMessage(meta, msg, env);
      var n := AttemptsMade(meta.maxRetries, env.endpoint, env.buildError);
      && !h.acked
      && h.effects[n..] == [Publish(meta.responseTopic, env.body.value), Ack] + ErrorHandler(meta, env.ackError.value)
  {
  }
}
