/**
 * Start-up of `consumeMessage`: attach to the durable consumer or create it,
 * then register the push callback.
 */
module Consumer {
  import opened Wrappers
  import opened Connector

  datatype AckPolicy = AckNone | AckAll | AckExplicit

  /** The fields of `jetstream.ConsumerConfig` the connector sets when it creates a consumer. */
  datatype ConsumerConfig = ConsumerConfig(
    durable: string,
    ackPolicy: AckPolicy,
    filterSubject: string,
    ackWait: int)

  /** How the consumer handle was obtained. */
  datatype Resolution = Attached | Created(config: ConsumerConfig)

  /** Subject suffix of the messages the connector consumes. */
  const InputSuffix: string := ".input"

  /**
   * Attach to the consumer `name` on stream `topic`; when the broker refuses
   * (`attached` false) create it. `createError` is the broker's answer to the
   * creation request (None: created).
   */
  function ResolveConsumer(topic: string, name: string, attached: bool, createError: Option<string>)
    : (r: Result<Resolution, string>)
    ensures attached ==> r == Success(Attached)
    ensures !attached && r.Success? ==> r.value.Created? && createError.None?
    ensures r.Success? && r.value.Created? ==>
      && r.value.config.durable == name
      && r.value.config.ackPolicy == AckExplicit
      && r.value.config.filterSubject == topic + InputSuffix
      && r.value.config.ackWait == PerMessageDeadline + Second
    ensures r.Failure? <==> !attached && createError.Some?
    ensures r.Failure? ==> r.error == "create consumer: " + createError.value
  {
    if attached then Success(Attached)
    else
      var config := ConsumerConfig(name, AckExplicit, topic + InputSuffix, PerMessageDeadline + Second);
      match createError
      case Some(e) => Failure("create consumer: " + e)
      case None => Success(Created(config))
  }

  /**
   * The broker redelivers an unacknowledged message only after its ack-wait,
   * which exceeds the per-message deadline by one second, so a handler that is
   * still inside its deadline never races the redelivery.
   */
  lemma AckWaitOutlastsDeadline(topic: string, name: string, createError: Option<string>)
    requires ResolveConsumer(topic, name, false, createError).Success?
    ensures ResolveConsumer(topic, name, false, createError).value.config.ackWait > PerMessageDeadline
    ensures ResolveConsumer(topic, name, false, createError).value.config.ackWait == 61 * Second
  {
  }

  /** The created consumer only sees the `<topic>.input` subject. */
  lemma FilterSubjectExtendsTopic(topic: string, name: string)
    ensures var r := ResolveConsumer(topic, name, false, None);
      && r.Success? && r.value.Created?
      && r.value.config.filterSubject[..|topic|] == topic
      && r.value.config.filterSubject[|topic|..] == ".input"
  {
  }

  /**
   * What `consumeMessage` returns: the consumer-creation error, else the error of
   * registering the push callback (`consumeError`), else nil (None) once the
   * root context is done.
   */
  function ConsumeMessage(meta: ConnectorMetadata, consumerName: string, attached: bool,
                          createError: Option<string>, consumeError: Option<string>): (r: Option<string>)
    ensures ResolveConsumer(meta.topic, consumerName, attached, createError).Failure? ==>
      r == Some(ResolveConsumer(meta.topic, consumerName, attached, createError).error)
    ensures ResolveConsumer(meta.topic, consumerName, attached, createError).Success? ==> r == consumeError
  {
    match ResolveConsumer(meta.topic, consumerName, attached, createError)
    case Failure(e) => Some(e)
    case Success(_) => consumeError
  }

  /** A creation failure stops start-up before any message is consumed, whatever the callback registration would give. */
  lemma CreationFailureIsFatal(meta: ConnectorMetadata, consumerName: string, e: string, consumeError: Option<string>)
    ensures ConsumeMessage(meta, consumerName, false, Some(e), consumeError) == Some("create consumer: " + e)
  {
  }
}
