/** Constants and value types shared by the request handler, the URL
    dispatcher and the admission gate of the batch-fetch service. */
module Config {

  /** Largest number of URLs accepted in one request. */
  const MaxUrlCount: nat := 20
  /** Capacity of the admission gate: requests served at the same time. */
  const MaxSimultaneousClients: nat := 100
  /** Largest number of fetch workers started for one request. */
  const MaxSimultaneousUrlRequests: nat := 4

  type byte = x: int | 0 <= x < 256

  datatype Option<+T> = None | Some(value: T)

  /** The outcome of fetching one URL: the body read so far and, when the
      fetch failed, the message of its error (`None` stands for Go's nil). */
  datatype UrlResult = UrlResult(url: string, response: seq<byte>, error: Option<string>)
  {
    predicate Succeeded() { error.None? }
  }

  /** The JSON body sent back to the client. An empty `responses` stands for
      Go's nil slice: the slice starts nil, grows only by `append` of one
      element, and is reset only to nil, so it is nil exactly when it is
      empty. */
  datatype ResultToUser = ResultToUser(error: string, responses: seq<UrlResult>)

  /** The URL of every result, in the order of the results. */
  function Urls(rs: seq<UrlResult>): (us: seq<string>)
    ensures |us| == |rs|
  {
    if rs == [] then [] else Urls(rs[..|rs| - 1]) + [rs[|rs| - 1].url]
  }

  lemma UrlsAppend(rs: seq<UrlResult>, r: UrlResult)
    ensures Urls(rs + [r]) == Urls(rs) + [r.url]
  {
    assert (rs + [r])[..|rs|] == rs;
  }
}
