/** The message types every component shares, and the option type used for absent keys. */
module Models {

  // Deduplication, routing and caching all compare URLs as plain strings.
  type Url = string

  datatype Option<+T> = None | Some(value: T)

  /** A crawl message on a task queue. */
  datatype Task = Task(url: Url, depth: int, maxDepth: int)

  /** A result message: the page that was crawled, the depth it was crawled at, its links. */
  datatype UrlData = UrlData(url: Url, depth: int, nextUrls: seq<Url>)

  /** A message body is decoded by the receiver, which may fail. */
  datatype Body = Json(data: UrlData) | Malformed

  function Max(a: int, b: int): int {
    if a < b then b else a
  }

  function Last<T>(s: seq<T>): T
    requires |s| > 0
  {
    s[|s| - 1]
  }
}
