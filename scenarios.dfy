/** Whole-message runs of the pipeline on concrete endpoints. */
module Scenarios {
  import opened Wrappers
  import opened Decimal
  import opened Connector
  import opened Retry
  import opened Pipeline

  function Meta(maxRetries: int, responseTopic: string): ConnectorMetadata {
    ConnectorMetadata("orders", responseTopic, "orders.errors", "http://fn", maxRetries, "text/plain", "src")
  }

  /** An endpoint that answers 500 twice, then 200. */
  function TwoFailuresThenOk(i: nat): Attempt {
    if i < 2 then Status(500) else Status(200)
  }

  function AlwaysStatus500(i: nat): Attempt {
    Status(500)
  }

  function AlwaysOk(i: nat): Attempt {
    Status(200)
  }

  function Live(endpoint: nat -> Attempt): Environment {
    Environment(endpoint, None, Success("done"), true, false, None)
  }

  /** MaxRetries 2 against 500, 500, 200: three requests, the body is published and the message acknowledged. */
  lemma ThirdAttemptSucceeds(msg: Message)
    ensures var h := HandleMessage(Meta(2, "orders.out"), msg, Live(TwoFailuresThenOk));
      && CountPosts(h.effects) == 3
      && h.acked
      && h.effects[3..] == [Publish("orders.out", "done"), Ack]
  {
    var endpoint := TwoFailuresThenOk;
    assert NoSuccessBefore(endpoint, 2) by {
      forall j | 0 <= j < 2 ensures !IsSuccess(endpoint(j)) {
      }
    }
    SuccessAtAttempt(2, endpoint, 2);
    AttemptsInTrace(Meta(2, "orders.out"), msg, Live(endpoint));
  }

  /**
   * MaxRetries 1 against 500, 500: two requests, the failure text with status
   * 500 goes to the error topic and the message is not acknowledged.
   */
  lemma RetriesExhausted(msg: Message)
    ensures var h := HandleMessage(Meta(1, "orders.out"), msg, Live(AlwaysStatus500));
      && CountPosts(h.effects) == 2
      && !h.acked
      && h.effects[2..] == [Publish("orders.errors", "request returned failure: " + "500" + ". " + "http_endpoint: http://fn, source: src")]
  {
    var meta := Meta(1, "orders.out");
    var env := Live(AlwaysStatus500);
    FailureStatusOnLastAttempt(meta, AlwaysStatus500, 500);
    AttemptsInTrace(meta, msg, env);
    HttpFailureReported(meta, msg, env, FailureStatus(500));
    FailureText500(meta);
    NoSuccessMeansNone(AlwaysStatus500, 2);
    assert AttemptsMade(1, AlwaysStatus500, None) == 2;
  }

  lemma FailureText500(meta: ConnectorMetadata)
    requires meta == Meta(1, "orders.out")
    ensures ErrorText(meta, FailureStatus(500))
      == "request returned failure: " + "500" + ". " + "http_endpoint: http://fn, source: src"
  {
    Format500();
    assert Location(meta) == "http_endpoint: http://fn, source: src";
    assert ErrorText(meta, FailureStatus(500)) == FailurePrefix + FormatInt(500) + ". " + Location(meta);
  }

  lemma Format500()
    ensures FormatInt(500) == "500"
  {
    assert FormatNat(5) == "5";
    assert FormatNat(50) == "50";
  }

  /**
   * Without a response topic a 200 answer leaves the message unacknowledged and
   * nothing is published after the single request.
   */
  lemma NoResponseTopicNoAck(msg: Message)
    ensures var h := HandleMessage(Meta(3, ""), msg, Live(AlwaysOk));
      && CountPosts(h.effects) == 1
      && !h.acked
      && |h.effects| == 1
  {
    SuccessAtAttempt(3, AlwaysOk, 0);
    AttemptsInTrace(Meta(3, ""), msg, Live(AlwaysOk));
  }
}
