/**
 * The push callback of `consumeMessage` and the handling task it spawns: the
 * callback takes a token from the concurrency gate before spawning, and the
 * task gives it back after `handleHTTPRequest`.
 */
module Dispatch {
  import opened Wrappers
  import opened Decimal
  import opened Connector
  import opened Concurrency
  import opened Headers
  import opened Retry
  import opened Pipeline

  /**
   * One message's handling task: merge the headers, run the retry loop, then
   * route its outcome.
   */
  method ProcessMessage(meta: ConnectorMetadata, msg: Message, env: Environment) returns (h: Handling)
    ensures h == HandleMessage(meta, msg, env)
  {
    var headers := MergeHeaders(meta, msg.headers);
    var result, sent := HandleHttpRequest(meta, env.endpoint, env.buildError);
    var routed := Route(meta, result, env);
    h := Handling(Posts(Request(meta.httpEndpoint, msg.data, headers), sent) + routed.effects, routed.acked);
  }

  /**
   * The consumer's dispatcher: the tasks that hold a gate token (`running`) and
   * the delivery, if any, whose callback is waiting for a token (`blocked`).
   * The transport calls the callback from one goroutine, so at most one
   * delivery can wait.
   */
  class Dispatcher {
    const meta: ConnectorMetadata
    const gate: ConcurrencyGate
    var running: seq<Message>
    var blocked: Option<Message>

    ghost predicate Valid()
      reads this, gate
    {
      && gate.Valid()
      && gate.inFlight == |running|
      && (blocked.Some? ==> |running| == gate.capacity)
    }

    constructor (meta: ConnectorMetadata, concurrent: string)
      ensures Valid() && fresh(gate)
      ensures this.meta == meta && gate.capacity == Capacity(concurrent)
      ensures running == [] && blocked == None
    {
      this.meta := meta;
      gate := new ConcurrencyGate(concurrent);
      running := [];
      blocked := None;
    }

    /**
     * The callback for one pushed message: take a token, then spawn its task.
     * On a full gate the callback waits with the message (`spawned` false).
     */
    method Deliver(msg: Message) returns (spawned: bool)
      requires Valid() && blocked.None?
      modifies this, gate
      ensures Valid()
      ensures spawned <==> old(|running|) < gate.capacity
      ensures spawned ==> running == old(running) + [msg] && blocked == None
      ensures !spawned ==> running == old(running) && blocked == Some(msg)
      ensures |running| <= gate.capacity
    {
      spawned := gate.TryAcquire();
      if spawned {
        running := running + [msg];
      } else {
        blocked := Some(msg);
      }
    }

    /**
     * Task `i` runs `handleHTTPRequest` and then gives its token back; a
     * waiting callback then takes that token and spawns its message.
     */
    method Complete(i: nat, env: Environment) returns (h: Handling)
      requires Valid() && i < |running|
      modifies this, gate
      ensures Valid()
      ensures h == HandleMessage(meta, old(running[i]), env)
      ensures blocked == None
      ensures running == old(running[..i] + running[i + 1..]) + (if old(blocked).Some? then [old(blocked).value] else [])
      ensures |running| <= gate.capacity
    {
      h := ProcessMessage(meta, running[i], env);
      running := running[..i] + running[i + 1..];
      gate.Release();
      if blocked.Some? {
        var resumed := gate.TryAcquire();
        running := running + [blocked.value];
        blocked := None;
      }
    }
  }

  /**
   * Capacity 2 and three messages: the first two are spawned, the third waits
   * until one of them completes and is then spawned.
   */
  method TwoSlotsThreeMessages(meta: ConnectorMetadata, m1: Message, m2: Message, m3: Message, env: Environment)
    returns (first: bool, second: bool, third: bool, afterFirstCompletes: seq<Message>)
    ensures first && second && !third
    ensures afterFirstCompletes == [m2, m3]
  {
    CapacityOfDecimal(2);
    assert FormatInt(2) == "2";
    var d := new Dispatcher(meta, "2");
    first := d.Deliver(m1);
    second := d.Deliver(m2);
    third := d.Deliver(m3);
    var h := d.Complete(0, env);
    afterFirstCompletes := d.running;
  }
}
