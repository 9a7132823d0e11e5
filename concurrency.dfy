/**
 * The concurrency gate: the capacity read from `CONCURRENT` and the buffered
 * channel used as a counting semaphore around each message's handling task.
 */
module Concurrency {
  import opened Wrappers
  import opened Decimal

  /**
   * `initialiseConcurrency`: the capacity of the semaphore channel for the value
   * of the `CONCURRENT` environment variable. Empty, unparsable or below-one
   * values all give 1.
   */
  function Capacity(concurrent: string): (c: int)
    ensures c >= 1
    ensures Atoi(concurrent).Some? && Atoi(concurrent).value >= 1 ==> c == Atoi(concurrent).value
    ensures Atoi(concurrent).None? || Atoi(concurrent).value < 1 ==> c == 1
  {
    var concurrency :=
      if concurrent != "" then
        match Atoi(concurrent)
        case Some(n) => n
        case None => 1
      else 1;
    if concurrency < 1 then 1 else concurrency
  }

  /** Writing any admissible capacity into `CONCURRENT` configures exactly that capacity. */
  lemma CapacityOfDecimal(n: int)
    requires 1 <= n <= MaxInt
    ensures Capacity(FormatInt(n)) == n
  {
    AtoiFormatInt(n);
  }

  /** An unset `CONCURRENT` variable runs one message at a time. */
  lemma CapacityUnset()
    ensures Capacity("") == 1
  {
  }

  /**
   * The buffered channel `concurrentSem`: `inFlight` tokens sit in a channel of
   * size `capacity`. A send (acquire) blocks while the channel is full; a receive
   * (release) takes back one token.
   */
  class ConcurrencyGate {
    const capacity: int
    var inFlight: nat

    ghost predicate Valid()
      reads this
    {
      1 <= capacity && inFlight <= capacity
    }

    /** `make(chan int, initialiseConcurrency())`: an empty channel. */
    constructor (concurrent: string)
      ensures Valid()
      ensures capacity == Capacity(concurrent) && inFlight == 0
    {
      capacity := Capacity(concurrent);
      inFlight := 0;
    }

    /**
     * `concurrentSem <- 1`. When the channel is full the send would block: it
     * does not happen, `admitted` is false and nothing changes.
     */
    method TryAcquire() returns (admitted: bool)
      requires Valid()
      modifies this
      ensures Valid()
      ensures admitted <==> old(inFlight) < capacity
      ensures inFlight == if admitted then old(inFlight) + 1 else old(inFlight)
    {
      admitted := inFlight < capacity;
      if admitted {
        inFlight := inFlight + 1;
      }
    }

    /** `<-concurrentSem`, done by a task that holds a token; it frees room for one send. */
    method Release()
      requires Valid() && inFlight > 0
      modifies this
      ensures Valid()
      ensures inFlight == old(inFlight) - 1 && inFlight < capacity
    {
      inFlight := inFlight - 1;
    }
  }
}
