/** fetch/fetch.go: the older httpFetcher behind `fetch.New`. It sends literal
    header values, and its deferred `Body.Close` replaces whatever error the
    fetch would otherwise return once a response has arrived. */
module HttpFetch {
  import opened Common
  import opened Errors
  import opened Web

  const UserAgent := "Baleen/1.0"
  const AcceptFeeds := "application/atom+xml,application/rdf+xml,application/rss+xml,application/x-netcdf,application/xml;q=0.9,text/xml;q=0.2,*/*;q=0.1"
  const CacheControl := "max-age=3600"
  const Referer := ""
  const AcceptInstanceManipulation := "feed"

  /** The request `newRequest` builds: no Accept-Encoding header, the
      validators sent back only when non-empty. */
  function RequestFor(url: string, s: Validators): (req: Request)
    ensures req.verb == MethodGet && req.url == url
    ensures HeaderIfNoneMatch in req.header <==> s.etag != ""
    ensures s.etag != "" ==> req.header[HeaderIfNoneMatch] == s.etag
    ensures HeaderIfModifiedSince in req.header <==> s.modified != ""
    ensures s.modified != "" ==> req.header[HeaderIfModifiedSince] == s.modified
    ensures HeaderGet(req.header, HeaderUserAgent) == UserAgent
    ensures HeaderGet(req.header, HeaderAccept) == AcceptFeeds
    ensures HeaderGet(req.header, HeaderCacheControl) == CacheControl
    ensures HeaderGet(req.header, HeaderRFC3229) == AcceptInstanceManipulation
    ensures HeaderAcceptEncode !in req.header
  {
    var always := map[HeaderUserAgent := UserAgent, HeaderAccept := AcceptFeeds,
                      HeaderCacheControl := CacheControl, HeaderReferer := Referer];
    var withETag := if s.etag != "" then always[HeaderIfNoneMatch := s.etag] else always;
    var withModified := if s.modified != "" then withETag[HeaderIfModifiedSince := s.modified] else withETag;
    Request(MethodGet, url, withModified[HeaderRFC3229 := AcceptInstanceManipulation])
  }

  /** One `Fetch` from state `s`. */
  function FetchStep(url: string, s: Validators, t: Transport): (r: Outcome)
    ensures r.feed.None? ==> r.err.Some? && r.after == s
    ensures r.err.Some? && r.err.value.HTTPValue? ==> !IsSuccess(r.err.value.http.code)
    ensures r.err.Some? ==> !r.err.value.HTTPPointer?
  {
    if t.requestError.Some? then Outcome(None, Some(Plain(t.requestError.value)), s)
    else match t.send(RequestFor(url, s))
      case Err(e) => Outcome(None, Some(Plain(e)), s)
      case Ok(rep) =>
        var closed := if rep.closeError.Some? then Some(Plain(rep.closeError.value)) else None;
        if rep.statusCode < 200 || rep.statusCode >= 300 then
          Outcome(None, if closed.Some? then closed else Some(HTTPValue(HTTPError(rep.statusCode, rep.status))), s)
        else match rep.parsed
          case Err(e) => Outcome(None, if closed.Some? then closed else Some(Plain(e)), s)
          case Ok(feed) =>
            Outcome(Some(feed), closed, Validators(HeaderGet(rep.header, HeaderETag), HeaderGet(rep.header, HeaderLastModified)))
  }

  /** Once a response arrives, a failing `Body.Close` is the error returned,
      whatever the status and the parse gave; a parsed 2xx then comes back as
      a feed and an error together, and the validators are still updated. */
  lemma CloseErrorSupersedes(url: string, s: Validators, t: Transport)
    requires t.requestError.None? && t.send(RequestFor(url, s)).Ok?
    requires t.send(RequestFor(url, s)).value.closeError.Some?
    ensures var rep := t.send(RequestFor(url, s)).value;
      var r := FetchStep(url, s, t);
      && r.err == Some(Plain(rep.closeError.value))
      && (IsSuccess(rep.statusCode) && rep.parsed.Ok? ==>
            r.feed == Some(rep.parsed.value) &&
            r.after == Validators(HeaderGet(rep.header, HeaderETag), HeaderGet(rep.header, HeaderLastModified)))
  {
  }

  /** What the response decides when closing the body succeeds: a non-2xx
      status (304 included) is an HTTPError value and leaves the state alone;
      a 2xx that parses is returned without error and overwrites both
      validators with the response headers, even empty ones; a 2xx that does
      not parse is the parse error and changes nothing. */
  lemma FetchStepResponses(url: string, s: Validators, t: Transport)
    requires t.requestError.None? && t.send(RequestFor(url, s)).Ok?
    requires t.send(RequestFor(url, s)).value.closeError.None?
    ensures var rep := t.send(RequestFor(url, s)).value;
      var r := FetchStep(url, s, t);
      && (!IsSuccess(rep.statusCode) ==> r == Outcome(None, Some(HTTPValue(HTTPError(rep.statusCode, rep.status))), s))
      && (IsSuccess(rep.statusCode) && rep.parsed.Ok? ==>
            r == Outcome(Some(rep.parsed.value), None,
                         Validators(HeaderGet(rep.header, HeaderETag), HeaderGet(rep.header, HeaderLastModified))))
      && (IsSuccess(rep.statusCode) && rep.parsed.Err? ==> r == Outcome(None, Some(Plain(rep.parsed.error)), s))
  {
  }

  /** Without a close error the fetcher returns exactly one of a feed and an
      error, the same way the FeedFetcher does. */
  lemma WithoutCloseErrorExactlyOne(url: string, s: Validators, t: Transport)
    requires t.requestError.Some? || t.send(RequestFor(url, s)).Err? || t.send(RequestFor(url, s)).value.closeError.None?
    ensures FetchStep(url, s, t).feed.Some? <==> FetchStep(url, s, t).err.None?
  {
  }

  /** The conditional GET of the older fetcher: a 304 to the tag it stored is
      reported as an HTTPError value (or as the close error, if closing
      fails). */
  lemma NotModifiedAfterETag(url: string, s: Validators, t1: Transport, t2: Transport)
    requires FetchStep(url, s, t1).feed.Some? && FetchStep(url, s, t1).after.etag != ""
    requires t2.requestError.None?
    requires forall req: Request :: HeaderGet(req.header, HeaderIfNoneMatch) == FetchStep(url, s, t1).after.etag ==>
               t2.send(req).Ok? && t2.send(req).value.statusCode == StatusNotModified && t2.send(req).value.closeError.None?
    ensures var r := FetchStep(url, FetchStep(url, s, t1).after, t2);
      r.feed.None? && r.err.Some? && r.err.value.HTTPValue? && r.err.value.http.NotModified()
  {
    var s1 := FetchStep(url, s, t1).after;
    var req := RequestFor(url, s1);
    assert HeaderGet(req.header, HeaderIfNoneMatch) == s1.etag;
  }

  class HttpFetcher {
    const url: string
    var etag: string
    var modified: string

    /** `New(url)`: no validators yet. */
    constructor (url: string)
      ensures this.url == url && etag == "" && modified == ""
    {
      this.url := url;
      etag := "";
      modified := "";
    }

    method NewRequest(t: Transport) returns (r: Result<Request, Error>)
      ensures t.requestError.Some? ==> r == Err(Plain(t.requestError.value))
      ensures t.requestError.None? ==> r == Ok(RequestFor(url, Validators(etag, modified)))
    {
      if t.requestError.Some? {
        return Err(Plain(t.requestError.value));
      }
      var header: Header := map[];
      header := header[HeaderUserAgent := UserAgent];
      header := header[HeaderAccept := AcceptFeeds];
      header := header[HeaderCacheControl := CacheControl];
      header := header[HeaderReferer := Referer];
      if etag != "" {
        header := header[HeaderIfNoneMatch := etag];
      }
      if modified != "" {
        header := header[HeaderIfModifiedSince := modified];
      }
      header := header[HeaderRFC3229 := AcceptInstanceManipulation];
      r := Ok(Request(MethodGet, url, header));
    }

    method Fetch(t: Transport) returns (feed: Option<Feed>, err: Option<Error>)
      modifies this
      ensures Outcome(feed, err, Validators(etag, modified)) == FetchStep(url, old(Validators(etag, modified)), t)
    {
      var req := NewRequest(t);
      if req.Err? {
        return None, Some(req.error);
      }
      var rep := t.send(req.value);
      if rep.Err? {
        return None, Some(Plain(rep.error));
      }
      if rep.value.statusCode < 200 || rep.value.statusCode >= 300 {
        feed, err := None, Some(HTTPValue(HTTPError(rep.value.statusCode, rep.value.status)));
      } else if rep.value.parsed.Err? {
        feed, err := None, Some(Plain(rep.value.parsed.error));
      } else {
        feed, err := Some(rep.value.parsed.value), None;
        etag := HeaderGet(rep.value.header, HeaderETag);
        modified := HeaderGet(rep.value.header, HeaderLastModified);
      }
      // the deferred close
      if rep.value.closeError.Some? {
        err := Some(Plain(rep.value.closeError.value));
      }
    }
  }
}
