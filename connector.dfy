/**
 * The values the connector works on: its metadata (the keda-connectors
 * `ConnectorMetadata` it reads at start-up), header maps and inbound messages.
 */
module Connector {

  /**
   * Go `string` and `[]byte` are both byte sequences and the connector converts
   * between them without re-encoding; the model keeps one character per byte.
   */
  type Bytes = string

  /** An `http.Header` / `nats.Header`: each key carries a list of values. */
  type Header = map<string, seq<string>>

  /** The settings the delivery pipeline reads from the connector metadata. */
  datatype ConnectorMetadata = ConnectorMetadata(
    topic: string,
    responseTopic: string,
    errorTopic: string,
    httpEndpoint: string,
    maxRetries: int,
    contentType: string,
    sourceName: string)

  /** A message pushed by the durable consumer: its payload and its headers. */
  datatype Message = Message(data: Bytes, headers: Header)

  /** `time.Duration` values, in nanoseconds as Go counts them. */
  const Second: int := 1_000_000_000
  const Minute: int := 60 * Second

  /** The per-message deadline and the base of the consumer's ack-wait, fixed at one minute. */
  const PerMessageDeadline: int := Minute
}
