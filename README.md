# Batch URL fetcher: dispatcher, collector and admission gate

This project models the concurrency core of a small Go HTTP service,
`main.go`. A client POSTs up to 20 URLs. The handler fetches them with at
most 4 workers and answers with all the bodies, or with the first error.
At most 100 requests are served at the same time.

The model has five modules:

- `Config`: the constants (`MaxUrlCount` 20, `MaxSimultaneousClients` 100,
  `MaxSimultaneousUrlRequests` 4) and the value types `UrlResult` and
  `ResultToUser`. Go's `error` is an `Option<string>` holding its message.
  A nil `Responses` slice is the empty sequence. That mapping is exact: the
  slice starts nil, grows only by `append` of one result (main.go:174), and
  is reset only to nil (main.go:171), so it is nil exactly when it is empty.
- `Channels`: a buffered Go channel as a value: a FIFO buffer, a capacity
  and a closed flag. `Send` requires room and an open channel. So any
  caller that verifies has proved that its send cannot block or panic.
- `Dispatcher`: `QueryUrls` together with the result `pipeline` and the
  `quit` channel. All the goroutines of one request share one `Dispatch`
  state. Each of them takes steps on it:
  - the producer enqueues a URL or closes the queue;
  - a worker runs its `select`, or delivers a fetch result;
  - the collector takes a result, or closes `quit`.

  `Run` executes any schedule of these steps. Every step keeps `Valid`,
  the buffer accounting: each drawn task has either sent exactly one
  result or is still in flight with one worker. So neither the task queue
  nor the pipeline, both of capacity `len(urls)`, ever overflows.
- `Collector`: the rest of `Handle`:
  - the size check and its error message;
  - the worker clamp;
  - the labelled collection loop, run over the sequence of events its
    `select` takes;
  - the reply, or the lack of one.

  `Collected` is the declarative meaning of the loop, and the method
  `Collect` is proved equal to it.
- `Admission`: `HandleConnection`'s semaphore as a class `Gate`, with a
  slot count, a capacity and a shutdown flag. Go's random choice between
  ready `select` cases is Dafny's nondeterministic `if *`.

Where a Go `select` can take several ready cases, the model allows each of
them:
- a worker's `select` when a task and `quit` are both ready;
- the gate's `select` when shutdown is raised and a slot is free.

The collector's choice between a disconnect and a result comes in as its
event sequence.

Two behaviours a reader might expect that the code does not have; the
model follows the code:
- After `quit` is closed, a worker whose queue still holds tasks may go on
  drawing tasks. Go picks between the two ready cases at random, so the
  worker need not stop at once. `Select` allows both choices.
- A failed fetch whose error message is empty gives the reply
  `Error == ""` with no responses. `Collected` only promises that a
  non-empty error comes with no responses.

## Model

| member | source | states |
|---|---|---|
| `Collector.WorkersCount` | main.go:136-140 | The worker count is the minimum of 4 and the URL count: it is at most both, equals one of them, and is positive when there is a URL. |
| `Collector.Decimal` | main.go:128 | The `%d` rendering of a count is a non-empty string of decimal digits, without a leading zero, whose value is the count. |
| `Collector.TooManyUrlsMessage` | main.go:128 | The size-limit message is exactly "Maximum allowed urls in one request is 20". |
| `Collector.SuccessRun` | main.go:154-175 | The loop's stopping point: every earlier event is a successful outcome, and the event there, if within the bound, is not. |
| `Collector.Collected` | main.go:147-178 | The loop takes at most `len(urls)` events. A non-empty error comes with no responses. `quit` is closed exactly when the last event taken was not a success. The reply is withdrawn exactly when the last event taken was a disconnect. |
| `Collector.CollectedAllSucceed` | main.go:173-175 | When every event is a success, all `len(urls)` events are taken, `quit` stays open, the error is "" and the responses are the results in arrival order. |
| `Collector.CollectedFailFast` | main.go:165-172 | The first failed outcome sets the error to its message, empties the responses and closes `quit`, and no later event is taken. |
| `Collector.CollectedDisconnect` | main.go:156-161 | A disconnect closes `quit`, withdraws the reply and ends the loop; the successes before it are kept. |
| `Collector.Collect` | main.go:147-178 | The imperative loop ends in the state `Collected` describes. It calls `close(quit)` at most once, and does so exactly when `quit` ends up closed. |
| `Collector.Handle` | main.go:126-193 | More than 20 URLs get the size-limit error, with no dispatcher, no worker and no event consumed. Otherwise `WorkersCount` workers start on a valid dispatcher state. At most `len(urls)` events are consumed and `quit` is closed at most once. The reply is the collected result unless the client disconnected, and an error reply has no responses. |
| `Collector.StartedWorkersDeliver` | main.go:97-103 | With the clamped worker count, once every worker has returned without `quit`, the results sent carry every URL of the request exactly as often as it appears, and the pipeline holds at most `len(urls)` results. |
| `Collector.AllSucceededCoverRequest` | main.go:173-175 | If every fetch succeeded and the collector's events are the results the dispatcher state records as received from the pipeline, in order, the reply has no error and has one response per URL, matching the request's URLs as a multiset. |
| `Dispatcher.InFlightUpdate` | main.go:80-86 | Changing one worker's state changes the multiset of tasks in flight by exactly the old and new task of that worker. |
| `Dispatcher.InFlightSize` | main.go:73-94 | Each worker has at most one task in flight. |
| `Dispatcher.BalancedDraw` | main.go:80 | A worker that draws a task keeps the balance: drawn tasks equal sent results plus tasks in flight. |
| `Dispatcher.BalancedExit` | main.go:82-90 | A waiting worker that returns keeps the balance. |
| `Dispatcher.BalancedDeliver` | main.go:85-86 | A fetching worker's send keeps the balance, and before it fewer results were sent than tasks drawn. |
| `Dispatcher.Start` | main.go:69-94 | After `QueryUrls` starts, both buffers are empty and open with capacity `len(urls)`, there are `workersCount` waiting workers, and the accounting holds. |
| `Dispatcher.EnqueueKeepsQueue` | main.go:97-98 | The task queue has room for the next URL, and after the send the queue still holds the request's URLs in order. |
| `Dispatcher.EnqueueKeepsValid` | main.go:97-98 | Enqueuing the next URL keeps the whole accounting. |
| `Dispatcher.EnqueueNext` | main.go:98 | `tasks <- url` finds room, appends the next URL, and changes nothing else. |
| `Dispatcher.CloseTasks` | main.go:101 | The queue is closed only after every URL is enqueued, and its contents stay. |
| `Dispatcher.Preload` | main.go:97-101 | The producer loop enqueues every URL once, in order, without blocking, then closes the queue. |
| `Dispatcher.DrawKeepsValid` | main.go:80 | Drawing the oldest task keeps the accounting. |
| `Dispatcher.Draw` | main.go:80 | A worker takes the oldest queued task and records it as drawn and in flight. |
| `Dispatcher.Exit` | main.go:82-90 | A worker returns only when the queue is closed and empty, or when `quit` is closed. |
| `Dispatcher.Select` | main.go:79-91 | A worker's `select` draws the oldest task, returns, or waits. It waits exactly when neither case is ready. Without `quit` it draws whenever a task is queued and returns on a closed, empty queue. With both cases ready, either may happen. |
| `Dispatcher.DeliverFindsRoom` | main.go:85-86 | Before a worker's send, the pipeline holds fewer than `len(urls)` results, so the send does not block. |
| `Dispatcher.DeliverKeepsValid` | main.go:85-86 | Sending a fetching worker's result keeps the accounting. |
| `Dispatcher.Deliver` | main.go:85-86 | `out <- UrlResult{task, result, err}` finds room, appends exactly one result for the worker's task, and sets the worker back to waiting. |
| `Dispatcher.Receive` | main.go:163 | The collector receives the oldest result not yet taken; the sent history is unchanged. |
| `Dispatcher.CloseQuit` | main.go:158-167 | Closing `quit` changes nothing else and keeps the accounting. |
| `Dispatcher.Apply` | main.go:67-104 | Any single step of any goroutine keeps the accounting, with fixed URLs and workers, growing histories, and `quit` staying closed once closed. |
| `Dispatcher.Run` | main.go:67-104 | Under every schedule of the request's goroutines, every channel send finds room and the accounting holds throughout. |
| `Dispatcher.Accounting` | main.go:69-133 | Sent results plus tasks in flight equal tasks drawn. Drawn plus queued equals enqueued, which is at most `len(urls)`. The pipeline holds at most the results sent, which are at most `len(urls)`. Tasks in flight are at most the number of workers. |
| `Dispatcher.AllDelivered` | main.go:97-103 | When every worker has returned without `quit`, the sent results carry exactly the request's URLs, as a multiset. |
| `Admission.Gate.constructor` | main.go:203 | A fresh gate has no slot taken, capacity 100, and no shutdown. |
| `Admission.Gate.TryEnter` | main.go:206-216 | An admitted request takes one free slot. A rejection happens only after shutdown and leaves the count unchanged. The request blocks exactly when the gate is full and there is no shutdown. The count never exceeds the capacity. |
| `Admission.Gate.Exit` | main.go:213 | The deferred receive releases exactly one slot. |
| `Admission.Gate.Shutdown` | main.go:251 | Raising shutdown once leaves the slot count unchanged. |
| `Admission.Gate.Serve` | main.go:205-216 | A request through the gate leaves the slot count as it found it whatever the decision. It is admitted only when a slot was free, rejected only after shutdown, and blocked exactly when the gate is full without shutdown. It is admitted whenever a slot is free without shutdown, and rejected when the gate is full after shutdown. |

## Left out

- `RequestUrl` (main.go:49-59), the network GET with a 1-second timeout. A fetch's body and error are parameters of `Dispatcher.Deliver`.
- JSON decoding and encoding, `ioutil.ReadAll`, the POST method check, status codes, headers and `rw.Write` (main.go:109-124, 185-192). These are transport and serialisation. `json.Marshal` failing is not modelled, because these types always marshal.
- `CloseNotify` (main.go:150): a client disconnect is an event in the collector's input.
- Signal handling, `ListenAndServe` and `server.Shutdown` with its 5-second deadline (main.go:220-259). Only `close(quit)` is modelled, as `Admission.Gate.Shutdown`.
- `sync.WaitGroup` joins (main.go:71-76, 103, 143-145, 181) and the real blocking of channel operations. A blocked goroutine is one whose step is not taken; `Select` reports it as `Waiting` and `TryEnter` as `Blocked`.
- Any bound on over-fetching after `quit`, or any claim that workers stop at once. The worker's `select` may still take a queued task after `quit` is closed, so the code does not promise this.
- `Collector.Handle`: the collector's events are an input. They are not derived from a dispatcher run, because the scheduler decides when each result and the disconnect reach the `select`. `Collector.AllSucceededCoverRequest` states the link for runs in which the events are the dispatcher state's received results, in order.
- `Collector.Handle`: requires at least `len(urls)` events for an accepted request. The Go loop waits in its `select` until an event comes, and this model does not represent that waiting.
- Fairness and termination of schedules are not modelled: `Run` takes any finite schedule.
