/**
 * The outbound header set of `handleHTTPRequest`: five connector headers,
 * then `maps.Copy` of the inbound message's headers over them.
 */
module Headers {
  import opened Connector

  const InjectedKeys: set<string> := {"Topic", "RespTopic", "ErrorTopic", "Content-Type", "Source-Name"}

  /** The header literal built from the connector metadata: one value per key. */
  function Injected(meta: ConnectorMetadata): (h: Header)
    ensures h.Keys == InjectedKeys
    ensures forall k :: k in h ==> |h[k]| == 1
  {
    map[
      "Topic" := [meta.topic],
      "RespTopic" := [meta.responseTopic],
      "ErrorTopic" := [meta.errorTopic],
      "Content-Type" := [meta.contentType],
      "Source-Name" := [meta.sourceName]]
  }

  /** Reference definition of the merge: a map union in which the inbound headers win. */
  function Merged(meta: ConnectorMetadata, inbound: Header): (h: Header)
    ensures h.Keys == InjectedKeys + inbound.Keys
    ensures forall k :: k in inbound ==> h[k] == inbound[k]
    ensures forall k :: k in InjectedKeys && k !in inbound ==> h[k] == Injected(meta)[k]
  {
    Injected(meta) + inbound
  }

  /**
   * `maps.Copy(headers, msg.Headers())` on the injected headers: every inbound
   * key is written over the map in place, in no particular order.
   */
  method MergeHeaders(meta: ConnectorMetadata, inbound: Header) returns (headers: Header)
    ensures headers.Keys == InjectedKeys + inbound.Keys
    ensures forall k :: k in inbound ==> headers[k] == inbound[k]
    ensures forall k :: k in InjectedKeys && k !in inbound ==> headers[k] == Injected(meta)[k]
    ensures headers == Merged(meta, inbound)
  {
    headers := Injected(meta);
    var pending := inbound.Keys;
    while pending != {}
      invariant pending <= inbound.Keys
      invariant headers.Keys == InjectedKeys + (inbound.Keys - pending)
      invariant forall k :: k in inbound && k !in pending ==> headers[k] == inbound[k]
      invariant forall k :: k in InjectedKeys && (k !in inbound || k in pending) ==> headers[k] == Injected(meta)[k]
      decreases pending
    {
      var k :| k in pending;
      headers := headers[k := inbound[k]];
      pending := pending - {k};
    }
  }

  /** Every injected key that the message does not override keeps its single configured value. */
  lemma InjectedKeptWhenNotOverridden(meta: ConnectorMetadata, inbound: Header)
    ensures "Topic" !in inbound ==> Merged(meta, inbound)["Topic"] == [meta.topic]
    ensures "RespTopic" !in inbound ==> Merged(meta, inbound)["RespTopic"] == [meta.responseTopic]
    ensures "ErrorTopic" !in inbound ==> Merged(meta, inbound)["ErrorTopic"] == [meta.errorTopic]
    ensures "Content-Type" !in inbound ==> Merged(meta, inbound)["Content-Type"] == [meta.contentType]
    ensures "Source-Name" !in inbound ==> Merged(meta, inbound)["Source-Name"] == [meta.sourceName]
  {
  }
}
