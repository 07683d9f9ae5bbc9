/** The parts of Go's net/http and of the gofeed parser that the fetchers
    touch, as values: a request with its header, the response the transport
    returns, and the feed the parser makes of the response body. */
module Web {
  import opened Common
  import opened Errors

  /** An `http.Header` with one value per name. */
  type Header = map<string, string>

  /** `Header.Get`: the empty string for a missing name. */
  function HeaderGet(h: Header, name: string): string
  {
    if name in h then h[name] else ""
  }

  const MethodGet := "GET"

  datatype Request = Request(verb: string, url: string, header: Header)

  /** The gofeed types the ingestion code reads. */
  datatype Person = Person(name: string, email: string)
  datatype Image = Image(url: string, title: string)
  datatype Enclosure = Enclosure(url: string, length: string, mediaType: string)
  datatype Item = Item(
    title: string, description: string, content: string, link: string,
    updated: string, published: string, authors: seq<Person>, guid: string,
    image: Option<Image>, categories: seq<string>, enclosures: seq<Enclosure>)
  datatype Feed = Feed(
    title: string, description: string, link: string, feedLink: string,
    links: seq<string>, updated: string, published: string, language: string,
    copyright: string, generator: string, categories: seq<string>,
    feedType: string, feedVersion: string, items: seq<Item>)

  /** An `http.Response`: status line, header, what the feed parser makes of
      the body, and what closing the body returns. */
  datatype Response = Response(
    statusCode: int, status: string, header: Header,
    parsed: Result<Feed, string>, closeError: Option<string>)

  /** The world outside the process: whether `http.NewRequest` rejects the
      fetcher's URL, and what `client.Do` returns for a request. */
  datatype Transport = Transport(requestError: Option<string>, send: Request -> Result<Response, string>)

  predicate IsSuccess(code: int) { 200 <= code < 300 }

  /** Header names, as the fetchers write them. */
  const HeaderUserAgent := "User-Agent"
  const HeaderAccept := "Accept"
  const HeaderAcceptEncode := "Accept-Encoding"
  const HeaderCacheControl := "Cache-Control"
  const HeaderReferer := "Referer"
  const HeaderIfNoneMatch := "If-None-Match"
  const HeaderIfModifiedSince := "If-Modified-Since"
  const HeaderRFC3229 := "A-IM"
  const HeaderETag := "ETag"
  const HeaderLastModified := "Last-Modified"

  /** The conditional-GET state a fetcher keeps between fetches: the
      entity tag and the modification date of the last successful fetch. */
  datatype Validators = Validators(etag: string, modified: string)

  /** The outcome of one fetch: the parsed feed and the error, and the
      fetcher's state afterwards. */
  datatype Outcome = Outcome(feed: Option<Feed>, err: Option<Error>, after: Validators)
}
