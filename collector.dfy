/** The request handler `Handle` (main.go:107-195) from the size check on:
    the clamp on the number of workers and the loop that collects the
    workers' results into the reply (main.go:147-183).

    The collector's `select` (main.go:155-177) waits for either a client
    disconnect or a result. Which one it takes, and in which order results
    arrive, is decided by the scheduler and the network; the model receives
    that choice as the sequence of events the `select` took, in order. */
module Collector {
  import opened Config
  import Dispatcher

  /** What one run of the collector's `select` received. */
  datatype Event =
    | Outcome(result: UrlResult)   // res := <-pipeline, main.go:163
    | Disconnect                   // <-connectionClose, main.go:156

  predicate IsSuccess(e: Event)
  {
    e.Outcome? && e.result.Succeeded()
  }

  /** The collector's local state: the reply under construction, whether a
      reply is still wanted, whether `quit` is closed, and how many events
      the loop has taken. */
  datatype Collection = Collection(results: ResultToUser, needToSend: bool, quitClosed: bool, consumed: nat)

  /** What `Handle` writes back to the client. */
  datatype Reply =
    | BadRequest(message: string)  // http.Error(..., StatusBadRequest), main.go:128
    | NoReply                      // needToSend is false, main.go:183
    | Json(body: ResultToUser)     // the marshalled results, main.go:185-192

  /** `min(MaxSimultaneousUrlRequests, len(urls))` (main.go:137-140). */
  function WorkersCount(urlCount: nat): (r: nat)
    ensures r <= MaxSimultaneousUrlRequests && r <= urlCount
    ensures r == MaxSimultaneousUrlRequests || r == urlCount
    ensures urlCount > 0 ==> r > 0
  {
    if urlCount < MaxSimultaneousUrlRequests then urlCount else MaxSimultaneousUrlRequests
  }

  /** The number a string of decimal digits denotes, most significant digit
      first. */
  function DigitsValue(s: string): nat
  {
    if s == [] then 0
    else
      var d := s[|s| - 1] as int - '0' as int;
      DigitsValue(s[..|s| - 1]) * 10 + (if 0 <= d then d else 0)
  }

  /** The decimal digits of `n`, as `fmt.Sprintf("%d", n)` writes them: a
      non-empty string of digits, without leading zeros, that denotes `n`. */
  function Decimal(n: nat): (s: string)
    ensures |s| > 0
    ensures forall i :: 0 <= i < |s| ==> '0' <= s[i] <= '9'
    ensures DigitsValue(s) == n
    ensures |s| > 1 ==> s[0] != '0'
    decreases n
  {
    var digit := ['0' + (n % 10) as char];
    if n < 10 then
      assert digit[..0] == [];
      digit
    else
      var high := Decimal(n / 10);
      assert (high + digit)[..|high|] == high;
      high + digit
  }

  /** The message of a request with too many URLs (main.go:128). */
  function TooManyUrlsMessage(): (m: string)
    ensures m == "Maximum allowed urls in one request is 20"
  {
    assert Decimal(MaxUrlCount) == "20" by {
      assert Decimal(2) == "2";
    }
    "Maximum allowed urls in one request is " + Decimal(MaxUrlCount)
  }

  /** The results carried by a run of outcome events, in order. */
  function Payloads(events: seq<Event>): (rs: seq<UrlResult>)
    requires forall i :: 0 <= i < |events| ==> events[i].Outcome?
    ensures |rs| == |events|
    ensures forall i :: 0 <= i < |events| ==> rs[i] == events[i].result
  {
    seq(|events|, i requires 0 <= i < |events| => events[i].result)
  }

  /** How many of the first `n` events are successful outcomes before the
      first one that is not. */
  function SuccessRun(events: seq<Event>, n: nat): (k: nat)
    requires n <= |events|
    ensures k <= n
    ensures forall i :: 0 <= i < k ==> IsSuccess(events[i])
    ensures k < n ==> !IsSuccess(events[k])
    decreases n
  {
    if n == 0 || !IsSuccess(events[0]) then 0 else 1 + SuccessRun(events[1..], n - 1)
  }

  /** The state the collection loop ends in, given the events its `select`
      takes and `n == len(urls)`: the loop appends the successes and stops at
      the first event that is not one. A failed outcome replaces the reply by
      its error message and no responses; a disconnect withdraws the reply.
      Both close `quit`. */
  function Collected(events: seq<Event>, n: nat): (c: Collection)
    requires n <= |events|
    ensures c.consumed <= n
    ensures c.results.error != "" ==> c.results.responses == []
    ensures c.quitClosed <==> c.consumed > 0 && !IsSuccess(events[c.consumed - 1])
    ensures !c.needToSend <==> c.consumed > 0 && events[c.consumed - 1].Disconnect?
  {
    var k := SuccessRun(events, n);
    if k == n then
      Collection(ResultToUser("", Payloads(events[..n])), true, false, n)
    else if events[k].Disconnect? then
      Collection(ResultToUser("", Payloads(events[..k])), false, true, k + 1)
    else
      Collection(ResultToUser(events[k].result.error.value, []), true, true, k + 1)
  }

  /** While every event taken is a success, the reply has no error and its
      responses are those results in arrival order (main.go:174). */
  lemma CollectedAllSucceed(events: seq<Event>, n: nat)
    requires n <= |events|
    requires forall i :: 0 <= i < n ==> IsSuccess(events[i])
    ensures Collected(events, n).consumed == n
    ensures !Collected(events, n).quitClosed && Collected(events, n).needToSend
    ensures Collected(events, n).results.error == ""
    ensures Collected(events, n).results.responses == Payloads(events[..n])
  {
    assert SuccessRun(events, n) == n;
  }

  /** The first failed outcome sets the error to its message, drops every
      response, closes `quit` and ends the loop: no later event is taken
      (main.go:165-172). */
  lemma CollectedFailFast(events: seq<Event>, n: nat, k: nat)
    requires k < n <= |events|
    requires forall i :: 0 <= i < k ==> IsSuccess(events[i])
    requires events[k].Outcome? && events[k].result.error.Some?
    ensures Collected(events, n).consumed == k + 1
    ensures Collected(events, n).results == ResultToUser(events[k].result.error.value, [])
    ensures Collected(events, n).quitClosed && Collected(events, n).needToSend
  {
    assert SuccessRun(events, n) == k;
  }

  /** A disconnect closes `quit`, withdraws the reply and ends the loop,
      keeping the successes taken before it (main.go:156-161). */
  lemma CollectedDisconnect(events: seq<Event>, n: nat, k: nat)
    requires k < n <= |events|
    requires forall i :: 0 <= i < k ==> IsSuccess(events[i])
    requires events[k].Disconnect?
    ensures Collected(events, n).consumed == k + 1
    ensures Collected(events, n).quitClosed && !Collected(events, n).needToSend
    ensures Collected(events, n).results == ResultToUser("", Payloads(events[..k]))
  {
    assert SuccessRun(events, n) == k;
  }

  /** The collection loop (main.go:147-178). `quitCloses` counts the
      `close(quit)` calls: each one is followed by `break Loop`, so there is
      at most one. */
  method Collect(events: seq<Event>, n: nat) returns (c: Collection, quitCloses: nat)
    requires n <= |events|
    ensures c == Collected(events, n)
    ensures quitCloses <= 1 && (quitCloses == 1 <==> c.quitClosed)
  {
    var results := ResultToUser("", []);
    var needToSend := true;
    var quitClosed := false;
    quitCloses := 0;
    var i := 0;
    while i < n
      invariant i <= n
      invariant forall j :: 0 <= j < i ==> IsSuccess(events[j])
      invariant results == ResultToUser("", Payloads(events[..i]))
      invariant needToSend && !quitClosed && quitCloses == 0
    {
      match events[i] {
        case Disconnect =>
          quitClosed, quitCloses := true, quitCloses + 1;
          needToSend := false;
          c := Collection(results, needToSend, quitClosed, i + 1);
          return;
        case Outcome(res) =>
          if res.error.Some? {
            quitClosed, quitCloses := true, quitCloses + 1;
            results := results.(error := res.error.value);
            results := results.(responses := []);
            c := Collection(results, needToSend, quitClosed, i + 1);
            return;
          } else {
            assert events[..i + 1] == events[..i] + [events[i]];
            results := results.(responses := results.responses + [res]);
          }
      }
      i := i + 1;
    }
    c := Collection(results, needToSend, quitClosed, i);
  }

  /** `Handle` from the size check on (main.go:126-195). A request with more
      than `MaxUrlCount` URLs is answered with an error before any channel or
      worker exists; otherwise `workersCount` workers are started on a fresh
      dispatcher state, the loop collects the events, and the reply is sent
      unless the client disconnected. */
  method Handle(urls: seq<string>, events: seq<Event>)
    returns (reply: Reply, dispatch: Option<Dispatcher.Dispatch>, workersCount: nat, consumed: nat, quitCloses: nat)
    requires |urls| <= MaxUrlCount ==> |urls| <= |events|
    ensures |urls| > MaxUrlCount <==> reply.BadRequest?
    ensures reply.BadRequest? ==>
      reply.message == "Maximum allowed urls in one request is 20" &&
      dispatch.None? && workersCount == 0 && consumed == 0 && quitCloses == 0
    ensures !reply.BadRequest? ==>
      && dispatch.Some? && Dispatcher.Valid(dispatch.value)
      && dispatch.value == Dispatcher.Start(urls, workersCount)
      && workersCount == WorkersCount(|urls|)
      && consumed <= |urls| && quitCloses <= 1
    ensures !reply.BadRequest? ==>
      var c := Collected(events, |urls|);
      consumed == c.consumed && (quitCloses == 1 <==> c.quitClosed) &&
      reply == (if c.needToSend then Json(c.results) else NoReply)
    ensures reply.Json? && reply.body.error != "" ==> reply.body.responses == []
  {
    if |urls| > MaxUrlCount {
      return BadRequest(TooManyUrlsMessage()), None, 0, 0, 0;
    }
    workersCount := MaxSimultaneousUrlRequests;
    if |urls| < MaxSimultaneousUrlRequests {
      workersCount := |urls|;
    }
    dispatch := Some(Dispatcher.Start(urls, workersCount));
    var c;
    c, quitCloses := Collect(events, |urls|);
    consumed := c.consumed;
    if c.needToSend {
      reply := Json(c.results);
    } else {
      reply := NoReply;
    }
  }

  /** The workers started for an accepted request can answer it: there is
      at least one worker whenever there is a URL, and when all of them have
      returned without `quit`, every URL has sent exactly one result, and the
      pipeline holds at most `len(urls)` of them. */
  lemma StartedWorkersDeliver(d: Dispatcher.Dispatch)
    requires Dispatcher.Valid(d) && !d.quitClosed
    requires |d.workers| == WorkersCount(|d.urls|)
    requires forall i :: 0 <= i < |d.workers| ==> d.workers[i] == Dispatcher.Exited
    ensures multiset(Urls(d.Sent())) == multiset(d.urls) && |d.Sent()| == |d.urls|
    ensures |d.out.buf| <= |d.urls|
  {
    Dispatcher.AllDelivered(d);
    Dispatcher.Accounting(d);
  }

  /** A request whose every fetch succeeded, collected from a run in which
      the collector's `select` took, in order, the results the dispatcher
      state records as received from the pipeline, is answered with
      one response per URL of the request, each URL as often as the request
      names it. */
  lemma AllSucceededCoverRequest(d: Dispatcher.Dispatch, events: seq<Event>)
    requires Dispatcher.Valid(d) && !d.quitClosed
    requires |d.workers| == WorkersCount(|d.urls|)
    requires forall i :: 0 <= i < |d.workers| ==> d.workers[i] == Dispatcher.Exited
    requires |d.urls| <= |events| && |d.urls| <= |d.received|
    requires forall i :: 0 <= i < |d.urls| ==> IsSuccess(events[i])
    requires forall i :: 0 <= i < |d.urls| ==> events[i] == Outcome(d.received[i])
    ensures Collected(events, |d.urls|).results.error == ""
    ensures multiset(Urls(Collected(events, |d.urls|).results.responses)) == multiset(d.urls)
    ensures |Collected(events, |d.urls|).results.responses| == |d.urls|
  {
    CollectedAllSucceed(events, |d.urls|);
    StartedWorkersDeliver(d);
    assert d.received == d.Sent();
    assert Payloads(events[..|d.urls|]) == d.received;
  }
}
