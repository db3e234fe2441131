/** The admission gate `HandleConnection` (main.go:201-218). The buffered
    channel `limiter` of capacity `MaxSimultaneousClients` is a counting
    semaphore: a request takes a slot by sending into it and gives the slot
    back, through `defer`, by receiving from it. Only the number of buffered
    elements matters, so the channel is kept as that count. The `shutdown`
    channel is closed by `main` when the process is told to stop
    (main.go:251). */
module Admission {
  import opened Config

  /** What a request's `select` (main.go:206-216) did. */
  datatype Decision =
    | Admitted   // limiter <- struct{}{} went through, main.go:212
    | Rejected   // <-shutdown was ready, main.go:207-210
    | Blocked    // neither case is ready: the goroutine waits

  class Gate {
    var count: nat
    const capacity: nat
    var shutdown: bool

    ghost predicate Valid()
      reads this
    {
      count <= capacity
    }

    /** `limiter := make(chan struct{}, MaxSimultaneousClients)` (main.go:203),
        with `shutdown` still open. */
    constructor ()
      ensures Valid() && count == 0 && capacity == MaxSimultaneousClients && !shutdown
    {
      count := 0;
      capacity := MaxSimultaneousClients;
      shutdown := false;
    }

    /** One run of the request's `select`. With the gate full and no
        shutdown, neither case is ready and the request waits; after
        shutdown with a free slot, both are ready and Go picks either at
        random; so does this method. */
    method TryEnter() returns (d: Decision)
      requires Valid()
      modifies this
      ensures Valid() && shutdown == old(shutdown)
      ensures d.Admitted? ==> old(count) < capacity && count == old(count) + 1
      ensures d.Rejected? ==> shutdown && count == old(count)
      ensures d.Blocked? <==> !shutdown && old(count) == capacity
      ensures d.Blocked? ==> count == old(count)
      ensures !shutdown && old(count) < capacity ==> d.Admitted?
      ensures shutdown && old(count) == capacity ==> d.Rejected?
    {
      var slotFree := count < capacity;
      var admit: bool;
      if slotFree && shutdown {
        if * { admit := true; } else { admit := false; }
      } else {
        admit := slotFree;
      }
      if admit {
        count := count + 1;
        d := Admitted;
      } else if shutdown {
        d := Rejected;
      } else {
        d := Blocked;
      }
    }

    /** The deferred `<-limiter` (main.go:213) of an admitted request. */
    method Exit()
      requires Valid() && count > 0
      modifies this
      ensures Valid() && count == old(count) - 1 && shutdown == old(shutdown)
    {
      count := count - 1;
    }

    /** `close(quit)` in `main` (main.go:251), the channel each gate reads as
        `shutdown`. Closing it twice would panic. */
    method Shutdown()
      requires Valid() && !shutdown
      modifies this
      ensures Valid() && shutdown && count == old(count)
    {
      shutdown := true;
    }

    /** One request through the gate: when admitted it is served and its
        deferred receive returns the slot, so the gate ends with the count it
        started with, whatever the decision. */
    method Serve() returns (d: Decision)
      requires Valid()
      modifies this
      ensures Valid() && count == old(count) && shutdown == old(shutdown)
      ensures d.Admitted? ==> old(count) < capacity
      ensures d.Rejected? ==> shutdown
      ensures d.Blocked? <==> !shutdown && count == capacity
      ensures !shutdown && count < capacity ==> d.Admitted?
      ensures shutdown && count == capacity ==> d.Rejected?
    {
      d := TryEnter();
      if d.Admitted? {
        Exit();
      }
    }
  }
}
