// HTTP as the launcher uses it: a GET of a URL either fails in transport or
// yields a status code and a body. The network itself is a parameter of
// every operation that fetches.
module Web {
  import opened Wrappers
  import opened FileSystem

  /** `statusText` is Go's `resp.Status`, e.g. "404 Not Found". */
  datatype Response = Response(status: int, statusText: string, body: Bytes)

  /** The responses the network would give to a GET of each URL; an `Err`
      is a transport failure. */
  type Client = string -> Result<Response>

  /** A 2xx status. */
  predicate Success(status: int)
  {
    200 <= status <= 299
  }

  /** A GET of `url` that returns a 2xx response. */
  predicate Fetched(web: Client, url: string)
  {
    web(url).Ok? && Success(web(url).value.status)
  }
}
