/** The URL dispatcher `QueryUrls` (main.go:67-104) together with the result
    channel it writes to (main.go:133) and the `quit` channel it listens to
    (main.go:134).

    The goroutines of one request become one state machine over a
    `Dispatch` value: the producer enqueues one URL or closes the task
    queue, a waiting worker runs its `select`, a fetching worker delivers
    its result, the collector takes one result, or the collector closes
    `quit`. Any interleaving of these steps is a run of the program
    (`Run`), and every step keeps `Valid`, which holds the buffer
    accounting. Because `Channel.Send` requires room in the buffer, the
    fact that every step verifies means that neither the preloading of the
    task queue nor a worker's result send can ever block. */
module Dispatcher {
  import opened Config
  import opened Channels

  /** Where a worker goroutine is: in its `select` (main.go:79), between
      drawing a task and sending its result (main.go:85-86), or returned. */
  datatype WorkerState = Idle | Fetching(task: string) | Exited

  /** What one run of a worker's `select` did. */
  datatype SelectOutcome = Drew(task: string) | Stopped | Waiting

  /** One scheduling step of the request's goroutines. */
  datatype Step =
    | Produce                                                // main.go:97-101
    | WorkerSelect(worker: nat)                              // main.go:79-91
    | WorkerSend(worker: nat, body: seq<byte>, err: Option<string>) // main.go:85-86
    | CollectorReceive                                       // main.go:163
    | Quit                                                   // main.go:158, 167

  function Task(w: WorkerState): multiset<string>
  {
    if w.Fetching? then multiset{w.task} else multiset{}
  }

  /** The tasks drawn but not yet answered: one per fetching worker. */
  function InFlight(ws: seq<WorkerState>): multiset<string>
  {
    if ws == [] then multiset{} else Task(ws[0]) + InFlight(ws[1..])
  }

  /** Adding the same multiset to both sides of an equation. */
  lemma AddBoth<T>(a: multiset<T>, x: multiset<T>, b: multiset<T>, y: multiset<T>, c: multiset<T>)
    requires a + x == b + y
    ensures (c + a) + x == (c + b) + y
  {
    forall o ensures ((c + a) + x)[o] == ((c + b) + y)[o] {
      assert (a + x)[o] == (b + y)[o];
    }
  }

  /** Changing one worker's state changes the tasks in flight by exactly that
      worker's task. */
  lemma {:induction false} InFlightUpdate(ws: seq<WorkerState>, i: nat, s: WorkerState)
    requires i < |ws|
    ensures InFlight(ws[i := s]) + Task(ws[i]) == InFlight(ws) + Task(s)
  {
    var ws' := ws[i := s];
    if i == 0 {
      assert ws'[1..] == ws[1..];
    } else {
      InFlightUpdate(ws[1..], i - 1, s);
      assert ws'[1..] == ws[1..][i - 1 := s];
      AddBoth(InFlight(ws'[1..]), Task(ws[i]), InFlight(ws[1..]), Task(s), Task(ws[0]));
    }
  }

  /** At most one fetch is in flight per worker. */
  lemma {:induction false} InFlightSize(ws: seq<WorkerState>)
    ensures |InFlight(ws)| <= |ws|
  {
    if ws != [] {
      InFlightSize(ws[1..]);
    }
  }

  /** With no worker fetching, nothing is in flight. */
  lemma {:induction false} NoneInFlight(ws: seq<WorkerState>)
    requires forall i :: 0 <= i < |ws| ==> !ws[i].Fetching?
    ensures InFlight(ws) == multiset{}
  {
    if ws != [] {
      NoneInFlight(ws[1..]);
    }
  }

  /** Each drawn task has either sent one result (whose URL is in
      `sentUrls`) or is in flight. */
  ghost predicate Balanced(sentUrls: seq<string>, ws: seq<WorkerState>, drawn: seq<string>)
  {
    multiset(sentUrls) + InFlight(ws) == multiset(drawn)
  }

  /** A waiting worker that draws task `t` keeps the balance. */
  lemma BalancedDraw(sentUrls: seq<string>, ws: seq<WorkerState>, drawn: seq<string>, w: nat, t: string)
    requires w < |ws| && ws[w].Idle? && Balanced(sentUrls, ws, drawn)
    ensures Balanced(sentUrls, ws[w := Fetching(t)], drawn + [t])
  {
    InFlightUpdate(ws, w, Fetching(t));
    assert Task(ws[w]) == multiset{} && Task(Fetching(t)) == multiset{t};
    var before, after := InFlight(ws), InFlight(ws[w := Fetching(t)]);
    assert after + multiset{} == after;
    assert after == before + multiset{t};
    assert multiset(drawn + [t]) == multiset(drawn) + multiset{t};
    assert multiset(sentUrls) + after == (multiset(sentUrls) + before) + multiset{t};
  }

  /** A waiting worker that returns keeps the balance. */
  lemma BalancedExit(sentUrls: seq<string>, ws: seq<WorkerState>, drawn: seq<string>, w: nat)
    requires w < |ws| && ws[w].Idle? && Balanced(sentUrls, ws, drawn)
    ensures Balanced(sentUrls, ws[w := Exited], drawn)
  {
    InFlightUpdate(ws, w, Exited);
    assert Task(ws[w]) == multiset{} && Task(Exited) == multiset{};
    var before, after := InFlight(ws), InFlight(ws[w := Exited]);
    assert after + multiset{} == after && before + multiset{} == before;
    assert after == before;
  }

  /** A fetching worker that sends its result keeps the balance; before the
      send, fewer results have been sent than tasks drawn. */
  lemma BalancedDeliver(sentUrls: seq<string>, ws: seq<WorkerState>, drawn: seq<string>, w: nat)
    requires w < |ws| && ws[w].Fetching? && Balanced(sentUrls, ws, drawn)
    ensures |sentUrls| < |drawn|
    ensures Balanced(sentUrls + [ws[w].task], ws[w := Idle], drawn)
  {
    InFlightUpdate(ws, w, Idle);
    var t := ws[w].task;
    assert Task(ws[w]) == multiset{t} && Task(Idle) == multiset{};
    var before, after := InFlight(ws), InFlight(ws[w := Idle]);
    assert before == after + multiset{t};
    assert multiset(sentUrls + [t]) == multiset(sentUrls) + multiset{t};
    assert multiset(sentUrls + [t]) + after == multiset(sentUrls) + before;
    assert |before| == |after| + 1;
    assert |multiset(sentUrls)| == |sentUrls|;
    assert |multiset(drawn)| == |drawn|;
  }

  /** The goroutines' shared state for one request. `drawn` and `received`
      record, in order, the tasks drawn from the queue and the results the
      collector took from the pipeline. */
  datatype Dispatch = Dispatch(
    urls: seq<string>,
    tasks: Channel<string>,      // tasks := make(chan string, len(urls)), main.go:69
    out: Channel<UrlResult>,     // pipeline := make(chan UrlResult, len(urls)), main.go:133
    next: nat,                   // URLs enqueued by the producer loop
    quitClosed: bool,
    workers: seq<WorkerState>,
    drawn: seq<string>,
    received: seq<UrlResult>)
  {
    /** Every result sent to the pipeline so far, in the order sent: the
        pipeline is first-in first-out. */
    function Sent(): seq<UrlResult>
    {
      received + out.buf
    }
  }

  /** The task queue has capacity `len(urls)`; every URL is enqueued once,
      in order, and drawn in that order. */
  ghost predicate QueueOk(d: Dispatch)
  {
    && d.tasks.Valid()
    && d.tasks.capacity == |d.urls|
    && d.next <= |d.urls|
    && (d.tasks.closed ==> d.next == |d.urls|)
    && d.drawn + d.tasks.buf == d.urls[..d.next]
  }

  /** The pipeline has capacity `len(urls)` and stays open. */
  ghost predicate PipelineOk(d: Dispatch)
  {
    && d.out.Valid()
    && d.out.capacity == |d.urls|
    && !d.out.closed
  }

  /** Without `quit`, a worker returns only from a closed, empty queue. */
  ghost predicate ExitsOk(d: Dispatch)
  {
    !d.quitClosed && Exited in d.workers ==> d.tasks.closed && d.tasks.buf == []
  }

  /** The accounting that every step keeps. */
  ghost predicate Valid(d: Dispatch)
  {
    && QueueOk(d)
    && PipelineOk(d)
    && Balanced(Urls(d.Sent()), d.workers, d.drawn)
    && ExitsOk(d)
  }

  /** `d'` is reachable from `d`: the request and the number of workers are
      fixed, the histories of drawn tasks, sent results and received
      results only grow, and `quit` stays closed once closed. */
  ghost predicate Follows(d: Dispatch, d': Dispatch)
  {
    && d'.urls == d.urls && |d'.workers| == |d.workers|
    && d.drawn <= d'.drawn && d.Sent() <= d'.Sent() && d.received <= d'.received
    && (d.quitClosed ==> d'.quitClosed)
  }

  /** The state right after `QueryUrls` has started its workers
      (main.go:69-94). */
  function Start(urls: seq<string>, workersCount: nat): (d: Dispatch)
    ensures Valid(d)
    ensures d.urls == urls && |d.workers| == workersCount
    ensures d.tasks.buf == [] && !d.tasks.closed && d.out.buf == [] && !d.quitClosed
    ensures forall i :: 0 <= i < workersCount ==> d.workers[i].Idle?
    ensures d.drawn == [] && d.Sent() == []
  {
    var ws := seq(workersCount, _ => Idle);
    NoneInFlight(ws);
    Dispatch(urls, Make(|urls|), Make(|urls|), 0, false, ws, [], [])
  }

  /** Enqueuing the next URL keeps the queue in order: the queue, whose
      capacity is `len(urls)`, has room for it. */
  lemma EnqueueKeepsQueue(d: Dispatch)
    requires QueueOk(d) && d.next < |d.urls|
    ensures |d.tasks.buf| < d.tasks.capacity
    ensures QueueOk(d.(tasks := d.tasks.Send(d.urls[d.next]), next := d.next + 1))
  {
    var u := d.urls[d.next];
    assert |d.drawn + d.tasks.buf| == |d.urls[..d.next]|;
    var tasks := d.tasks.Send(u);
    assert d.drawn + tasks.buf == (d.drawn + d.tasks.buf) + [u];
    assert d.urls[..d.next + 1] == d.urls[..d.next] + [u];
  }

  /** Enqueuing the next URL keeps the accounting. */
  lemma EnqueueKeepsValid(d: Dispatch)
    requires Valid(d) && d.next < |d.urls|
    ensures |d.tasks.buf| < d.tasks.capacity
    ensures Valid(d.(tasks := d.tasks.Send(d.urls[d.next]), next := d.next + 1))
  {
    EnqueueKeepsQueue(d);
    var d' := d.(tasks := d.tasks.Send(d.urls[d.next]), next := d.next + 1);
    assert d'.Sent() == d.Sent() && d'.workers == d.workers && d'.drawn == d.drawn;
  }

  /** One iteration of the producer loop, `tasks <- url` (main.go:98): the
      queue has room for the URL. */
  function EnqueueNext(d: Dispatch): (d': Dispatch)
    requires Valid(d) && d.next < |d.urls|
    ensures Valid(d')
    ensures Follows(d, d')
    ensures d'.tasks.buf == d.tasks.buf + [d.urls[d.next]] && d'.next == d.next + 1
    ensures d' == d.(tasks := d'.tasks, next := d'.next)
  {
    EnqueueKeepsValid(d);
    d.(tasks := d.tasks.Send(d.urls[d.next]), next := d.next + 1)
  }

  /** `close(tasks)` once every URL is enqueued (main.go:101). */
  function CloseTasks(d: Dispatch): (d': Dispatch)
    requires Valid(d) && d.next == |d.urls| && !d.tasks.closed
    ensures Valid(d')
    ensures Follows(d, d')
    ensures d'.tasks.closed && d'.tasks.buf == d.tasks.buf
    ensures d' == d.(tasks := d'.tasks)
  {
    d.(tasks := d.tasks.Close())
  }

  /** The producer loop run before any worker moves (main.go:97-101): every
      URL is enqueued once, in order, the queue is closed, and no send on it
      blocked. */
  method Preload(d: Dispatch) returns (d': Dispatch)
    requires Valid(d) && d.next == 0 && !d.tasks.closed
    ensures Valid(d')
    ensures d'.tasks.closed && d'.tasks.buf == d.tasks.buf + d.urls && d'.next == |d.urls|
    ensures d' == d.(tasks := d'.tasks, next := d'.next)
  {
    d' := d;
    while d'.next < |d.urls|
      invariant Valid(d') && !d'.tasks.closed && d'.urls == d.urls
      invariant d'.tasks.buf == d.tasks.buf + d.urls[..d'.next]
      invariant d' == d.(tasks := d'.tasks, next := d'.next)
      decreases |d.urls| - d'.next
    {
      assert d.urls[..d'.next + 1] == d.urls[..d'.next] + [d.urls[d'.next]];
      d' := EnqueueNext(d');
    }
    assert d.urls[..d'.next] == d.urls;
    d' := CloseTasks(d');
  }

  /** Drawing the oldest queued task keeps the accounting. */
  lemma DrawKeepsValid(d: Dispatch, w: nat)
    requires Valid(d) && w < |d.workers| && d.workers[w].Idle? && d.tasks.buf != []
    ensures var t := d.tasks.buf[0];
      Valid(d.(tasks := d.tasks.Receive().1, workers := d.workers[w := Fetching(t)], drawn := d.drawn + [t]))
  {
    var t := d.tasks.buf[0];
    var d' := d.(tasks := d.tasks.Receive().1, workers := d.workers[w := Fetching(t)], drawn := d.drawn + [t]);
    assert d'.drawn + d'.tasks.buf == d.drawn + d.tasks.buf;
    assert QueueOk(d');
    assert PipelineOk(d');
    assert d'.Sent() == d.Sent();
    BalancedDraw(Urls(d.Sent()), d.workers, d.drawn, w, t);
    assert Exited in d'.workers ==> Exited in d.workers;
  }

  /** Worker `w` takes the oldest queued task (main.go:80, `ok` true) and
      starts fetching it. */
  function Draw(d: Dispatch, w: nat): (d': Dispatch)
    requires Valid(d) && w < |d.workers| && d.workers[w].Idle? && d.tasks.buf != []
    ensures Valid(d')
    ensures Follows(d, d')
    ensures d'.tasks.buf == d.tasks.buf[1..] && d'.tasks.closed == d.tasks.closed
    ensures d'.workers == d.workers[w := Fetching(d.tasks.buf[0])]
    ensures d'.drawn == d.drawn + [d.tasks.buf[0]]
    ensures d' == d.(tasks := d'.tasks, workers := d'.workers, drawn := d'.drawn)
  {
    DrawKeepsValid(d, w);
    var (t, tasks) := d.tasks.Receive();
    d.(tasks := tasks, workers := d.workers[w := Fetching(t)], drawn := d.drawn + [t])
  }

  /** Worker `w` returns (main.go:83 or main.go:90), which it does only when
      the queue is closed and empty or `quit` is closed. */
  function Exit(d: Dispatch, w: nat): (d': Dispatch)
    requires Valid(d) && w < |d.workers| && d.workers[w].Idle?
    requires d.quitClosed || (d.tasks.closed && d.tasks.buf == [])
    ensures Valid(d')
    ensures Follows(d, d')
    ensures d' == d.(workers := d.workers[w := Exited])
  {
    BalancedExit(Urls(d.Sent()), d.workers, d.drawn, w);
    d.(workers := d.workers[w := Exited])
  }

  /** Worker `w` runs its `select` (main.go:79-91): it draws a task, returns,
      or waits. When a task is ready and `quit` is closed, Go picks either
      case at random; so does this method. */
  method Select(d: Dispatch, w: nat) returns (d': Dispatch, step: SelectOutcome)
    requires Valid(d) && w < |d.workers| && d.workers[w].Idle?
    ensures Valid(d') && Follows(d, d')
    ensures step.Drew? ==> d.tasks.buf != [] && step.task == d.tasks.buf[0] && d' == Draw(d, w)
    ensures step.Stopped? ==> (d.quitClosed || (d.tasks.closed && d.tasks.buf == [])) && d' == Exit(d, w)
    ensures step.Waiting? <==> !d.tasks.ReadyToReceive() && !d.quitClosed
    ensures step.Waiting? ==> d' == d
    ensures !d.quitClosed && d.tasks.buf != [] ==> step.Drew?
    ensures !d.quitClosed && d.tasks.closed && d.tasks.buf == [] ==> step.Stopped?
  {
    var taskReady := d.tasks.ReadyToReceive();
    var takeTask: bool;
    if taskReady && d.quitClosed {
      if * { takeTask := true; } else { takeTask := false; }
    } else {
      takeTask := taskReady;
    }
    if takeTask && d.tasks.buf != [] {
      d', step := Draw(d, w), Drew(d.tasks.buf[0]);
    } else if takeTask || d.quitClosed {
      d', step := Exit(d, w), Stopped;
    } else {
      d', step := d, Waiting;
    }
  }

  /** Before a fetching worker's send, fewer than `len(urls)` results are in
      the pipeline: each buffered result was sent for a drawn task, and the
      worker's own task is drawn but not yet answered. */
  lemma DeliverFindsRoom(d: Dispatch, w: nat)
    requires QueueOk(d) && PipelineOk(d) && Balanced(Urls(d.Sent()), d.workers, d.drawn)
    requires w < |d.workers| && d.workers[w].Fetching?
    ensures |d.out.buf| < d.out.capacity
  {
    BalancedDeliver(Urls(d.Sent()), d.workers, d.drawn, w);
    assert |d.drawn| <= |d.urls[..d.next]|;
  }

  /** Sending a fetching worker's result keeps the accounting. */
  lemma DeliverKeepsValid(d: Dispatch, w: nat, res: UrlResult)
    requires Valid(d) && w < |d.workers| && d.workers[w].Fetching? && res.url == d.workers[w].task
    requires |d.out.buf| < d.out.capacity
    ensures Valid(d.(out := d.out.Send(res), workers := d.workers[w := Idle]))
  {
    var d' := d.(out := d.out.Send(res), workers := d.workers[w := Idle]);
    assert QueueOk(d');
    assert PipelineOk(d');
    BalancedDeliver(Urls(d.Sent()), d.workers, d.drawn, w);
    UrlsAppend(d.Sent(), res);
    assert d'.Sent() == d.Sent() + [res];
    assert Balanced(Urls(d'.Sent()), d'.workers, d'.drawn);
    assert Exited in d'.workers ==> Exited in d.workers;
  }

  /** Worker `w`'s fetch returned `(body, err)` and the worker sends
      `UrlResult{task, body, err}` to the pipeline (main.go:85-86). The send
      finds room: fewer than `len(urls)` results have been sent before it. */
  function Deliver(d: Dispatch, w: nat, body: seq<byte>, err: Option<string>): (d': Dispatch)
    requires Valid(d) && w < |d.workers| && d.workers[w].Fetching?
    ensures Valid(d')
    ensures Follows(d, d')
    ensures d'.out.buf == d.out.buf + [UrlResult(d.workers[w].task, body, err)]
    ensures d'.Sent() == d.Sent() + [UrlResult(d.workers[w].task, body, err)]
    ensures d'.workers == d.workers[w := Idle]
    ensures d' == d.(out := d'.out, workers := d'.workers)
  {
    var res := UrlResult(d.workers[w].task, body, err);
    DeliverFindsRoom(d, w);
    DeliverKeepsValid(d, w, res);
    d.(out := d.out.Send(res), workers := d.workers[w := Idle])
  }

  /** The collector's `res := <-pipeline` (main.go:163) with a result
      buffered: it gets the oldest result sent and not yet taken. */
  function Receive(d: Dispatch): (d': Dispatch)
    requires Valid(d) && d.out.buf != []
    ensures Valid(d')
    ensures Follows(d, d')
    ensures d'.received == d.received + [d.out.buf[0]] && d'.out.buf == d.out.buf[1..]
    ensures d'.Sent() == d.Sent()
    ensures d' == d.(out := d'.out, received := d'.received)
  {
    var (r, out) := d.out.Receive();
    assert (d.received + [r]) + out.buf == d.Sent();
    d.(out := out, received := d.received + [r])
  }

  /** The collector's `close(quit)` (main.go:158, 167). */
  function CloseQuit(d: Dispatch): (d': Dispatch)
    requires Valid(d) && !d.quitClosed
    ensures Valid(d') && d' == d.(quitClosed := true)
    ensures Follows(d, d')
  {
    d.(quitClosed := true)
  }

  /** One scheduling step. A step whose goroutine cannot move (a worker not
      at that point, a producer that is done, an empty pipeline) changes
      nothing. */
  method Apply(d: Dispatch, step: Step) returns (d': Dispatch)
    requires Valid(d)
    ensures Valid(d') && Follows(d, d')
  {
    d' := d;
    match step {
      case Produce =>
        if d.next < |d.urls| {
          d' := EnqueueNext(d);
        } else if !d.tasks.closed {
          d' := CloseTasks(d);
        }
      case WorkerSelect(w) =>
        if w < |d.workers| && d.workers[w].Idle? {
          var outcome;
          d', outcome := Select(d, w);
        }
      case WorkerSend(w, body, err) =>
        if w < |d.workers| && d.workers[w].Fetching? {
          d' := Deliver(d, w, body, err);
        }
      case CollectorReceive =>
        if d.out.buf != [] {
          d' := Receive(d);
        }
      case Quit =>
        if !d.quitClosed {
          d' := CloseQuit(d);
        }
    }
  }

  /** Runs an arbitrary interleaving of the request's goroutines from the
      state `d`. Whatever the schedule, every channel operation found room,
      the URLs, workers and capacities are unchanged, and the histories only
      grow. */
  method Run(d: Dispatch, schedule: seq<Step>) returns (d': Dispatch)
    requires Valid(d)
    ensures Valid(d') && Follows(d, d')
  {
    d' := d;
    var i := 0;
    while i < |schedule|
      invariant Valid(d') && Follows(d, d')
      decreases |schedule| - i
    {
      d' := Apply(d', schedule[i]);
      i := i + 1;
    }
  }

  /** The buffer accounting behind the absence of blocking: each drawn task
      has sent a result or is in flight, at most one per worker, and neither
      the queue nor the pipeline ever holds more than `len(urls)` entries. */
  lemma Accounting(d: Dispatch)
    requires Valid(d)
    ensures |d.Sent()| + |InFlight(d.workers)| == |d.drawn|
    ensures |d.drawn| + |d.tasks.buf| == d.next <= |d.urls|
    ensures |d.out.buf| <= |d.Sent()| <= |d.urls|
    ensures |InFlight(d.workers)| <= |d.workers|
  {
    InFlightSize(d.workers);
    assert |multiset(Urls(d.Sent()))| == |d.Sent()|;
    assert |multiset(d.drawn)| == |d.drawn|;
    assert |d.drawn + d.tasks.buf| == |d.urls[..d.next]|;
  }

  /** When every worker has returned and `quit` was never closed, each URL of
      the request has produced exactly one result: the URLs of the results
      sent are those of the request, with the same multiplicities. */
  lemma AllDelivered(d: Dispatch)
    requires Valid(d) && !d.quitClosed
    requires |d.workers| > 0 || d.urls == []
    requires forall i :: 0 <= i < |d.workers| ==> d.workers[i] == Exited
    ensures multiset(Urls(d.Sent())) == multiset(d.urls)
    ensures |d.Sent()| == |d.urls|
  {
    NoneInFlight(d.workers);
    assert multiset(Urls(d.Sent())) == multiset(d.drawn);
    if |d.workers| > 0 {
      assert d.workers[0] == Exited;
      assert d.urls[..d.next] == d.urls;
    }
    assert |multiset(Urls(d.Sent()))| == |d.Sent()|;
  }
}
