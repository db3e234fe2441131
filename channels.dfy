/** A buffered Go channel `make(chan T, capacity)`: a FIFO buffer with a
    fixed capacity and a closed flag, held as a value by the goroutines'
    shared state and replaced whenever it is sent to, received from or
    closed.

    A send on a full buffer would block; `Send` therefore requires room, so
    every caller that verifies has shown that its send cannot block. Sending
    on or closing a closed channel makes Go panic, so `Send` and `Close`
    require an open channel. */
module Channels {

  datatype Channel<T> = Channel(buf: seq<T>, capacity: nat, closed: bool)
  {
    predicate Valid()
    {
      |buf| <= capacity
    }

    /** A receive `v, ok := <-ch` does not wait. */
    predicate ReadyToReceive()
    {
      |buf| > 0 || closed
    }

    /** `ch <- x` on a channel with room. */
    function Send(x: T): (c: Channel<T>)
      requires Valid() && !closed && |buf| < capacity
      ensures c.Valid() && c.buf == buf + [x]
      ensures c.capacity == capacity && c.closed == closed
    {
      Channel(buf + [x], capacity, closed)
    }

    /** `v, ok := <-ch` with an element buffered: the oldest one leaves. */
    function Receive(): (p: (T, Channel<T>))
      requires Valid() && buf != []
      ensures p.0 == buf[0] && p.1.buf == buf[1..]
      ensures p.1.Valid() && p.1.capacity == capacity && p.1.closed == closed
    {
      (buf[0], Channel(buf[1..], capacity, closed))
    }

    /** `close(ch)`. */
    function Close(): (c: Channel<T>)
      requires Valid() && !closed
      ensures c.Valid() && c.closed && c.buf == buf && c.capacity == capacity
    {
      Channel(buf, capacity, true)
    }
  }

  /** `make(chan T, capacity)`. */
  function Make<T>(capacity: nat): (c: Channel<T>)
    ensures c.Valid() && c.buf == [] && c.capacity == capacity && !c.closed
  {
    Channel([], capacity, false)
  }
}
