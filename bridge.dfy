/** The two sample channels between the event branch of the watch loop and
    the metric observation callbacks (cmd/blobstreamx-monitor/watch/cmd.go). */
module Bridge {
  import opened Outcomes

  /** Both channels are made with room for 100 samples. */
  const SampleCapacity := 100

  const NonceReadError := "error reading nonce from nonces channel in callback"
  const HeightReadError := "error reading height from heights channel in callback"

  function Min(a: nat, b: nat): nat { if a <= b then a else b }

  /** The samples in a channel's buffer: the oldest ones, as many as fit. */
  function BufferedPart(pending: seq<int>, capacity: nat): (b: seq<int>)
    ensures |b| <= capacity
    ensures b <= pending
    ensures |b| < capacity ==> b == pending
  {
    pending[..Min(|pending|, capacity)]
  }

  /** The samples still held by senders that wait for room in the buffer. */
  function WaitingPart(pending: seq<int>, capacity: nat): (w: seq<int>)
    ensures BufferedPart(pending, capacity) + w == pending
    ensures w != [] ==> |BufferedPart(pending, capacity)| == capacity
  {
    pending[Min(|pending|, capacity)..]
  }

  /** A send lands at the tail of the buffer while there is room; otherwise
      the buffer is left as it was and the sample waits its turn. Either
      way it is kept: nothing is dropped. */
  lemma SendKeepsSample(pending: seq<int>, capacity: nat, x: int)
    ensures |pending| < capacity ==>
      BufferedPart(pending + [x], capacity) == BufferedPart(pending, capacity) + [x]
    ensures capacity <= |pending| ==>
      && BufferedPart(pending + [x], capacity) == BufferedPart(pending, capacity)
      && WaitingPart(pending + [x], capacity) == WaitingPart(pending, capacity) + [x]
  {}

  /** A receive takes the head of the buffer; when a sender was waiting, its
      sample moves into the freed slot at the tail. */
  lemma ReceiveRefillsBuffer(pending: seq<int>, capacity: nat)
    requires capacity > 0 && capacity < |pending|
    ensures BufferedPart(pending[1..], capacity)
      == BufferedPart(pending, capacity)[1..] + [WaitingPart(pending, capacity)[0]]
  {}

  /** A buffered Go channel of int64 samples. `pending` is everything sent and
      not yet received, oldest first: the first `capacity` samples sit in the
      buffer, the rest belong to sends that wait until there is room. */
  class SampleBuffer {
    const capacity: nat
    var pending: seq<int>
    var closed: bool

    /** A closed channel has no waiting senders: closing one would make
        them fail. */
    ghost predicate Valid()
      reads this
    {
      closed ==> |pending| <= capacity
    }

    function Buffered(): (b: seq<int>)
      reads this
      ensures |b| <= capacity
    {
      BufferedPart(pending, capacity)
    }

    /** `make(chan int64, capacity)`: open and empty. */
    constructor (capacity: nat)
      ensures Valid()
      ensures this.capacity == capacity && pending == [] && !closed
    {
      this.capacity := capacity;
      pending := [];
      closed := false;
    }

    /** `ch <- x`, made by a sender of its own: the sender waits while the
        buffer is full, so the sample is queued behind every earlier one. */
    method Send(x: int)
      requires Valid() && !closed
      modifies this
      ensures Valid()
      ensures pending == old(pending) + [x] && closed == old(closed)
      ensures |old(pending)| < capacity ==> Buffered() == old(Buffered()) + [x]
      ensures capacity <= |old(pending)| ==> Buffered() == old(Buffered())
    {
      SendKeepsSample(pending, capacity, x);
      pending := pending + [x];
    }

    /** `close(ch)`. Samples already buffered can still be received. */
    method Close()
      requires Valid() && |pending| <= capacity
      modifies this
      ensures Valid()
      ensures closed && pending == old(pending)
    {
      closed := true;
    }

    /** The body of an observation callback: a `select` with a `default`
        branch, so it never waits. It observes the head sample when there is
        one; on an open, empty channel it does nothing and reports no error;
        on a closed, drained channel it reports `closedMessage`. */
    method TryReceive(closedMessage: string) returns (observed: Option<int>, err: Outcome)
      requires Valid()
      modifies this
      ensures Valid() && closed == old(closed)
      ensures old(pending) != [] ==>
        observed == Some(old(pending)[0]) && err == Ok && pending == old(pending)[1..]
      ensures old(pending) == [] && !closed ==>
        observed == None && err == Ok && pending == []
      ensures old(pending) == [] && closed ==>
        observed == None && err == Err(closedMessage) && pending == []
    {
      if pending != [] {
        observed := Some(pending[0]);
        pending := pending[1..];
        err := Ok;
      } else if closed {
        observed := None;
        err := Err(closedMessage);
      } else {
        observed := None;
        err := Ok;
      }
    }
  }
}
