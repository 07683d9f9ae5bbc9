/** fetch/feed.go: the FeedFetcher, a conditional-GET client that remembers
    the entity tag and modification date of the last successful fetch and
    sends them back as If-None-Match and If-Modified-Since (sections 3.2 and
    3.3 of RFC 7232). */
module FeedFetch {
  import opened Common
  import opened Errors
  import opened Web

  /** The values of the package constants userAgent, acceptRSS, acceptEncode,
      cacheControl, referer and aimType, which are declared outside this model. */
  datatype HeaderValues = HeaderValues(
    userAgent: string, accept: string, acceptEncode: string,
    cacheControl: string, referer: string, aim: string)

  /** The request `newRequest` builds for a fetcher in state `s`. */
  function RequestFor(url: string, s: Validators, v: HeaderValues): (req: Request)
    ensures req.verb == MethodGet && req.url == url
    ensures HeaderIfNoneMatch in req.header <==> s.etag != ""
    ensures s.etag != "" ==> req.header[HeaderIfNoneMatch] == s.etag
    ensures HeaderIfModifiedSince in req.header <==> s.modified != ""
    ensures s.modified != "" ==> req.header[HeaderIfModifiedSince] == s.modified
    ensures HeaderGet(req.header, HeaderUserAgent) == v.userAgent
    ensures HeaderGet(req.header, HeaderAccept) == v.accept
    ensures HeaderGet(req.header, HeaderAcceptEncode) == v.acceptEncode
    ensures HeaderGet(req.header, HeaderCacheControl) == v.cacheControl
    ensures HeaderGet(req.header, HeaderReferer) == v.referer
    ensures HeaderGet(req.header, HeaderRFC3229) == v.aim
    ensures req.header.Keys <= {HeaderUserAgent, HeaderAccept, HeaderAcceptEncode, HeaderCacheControl,
                                HeaderReferer, HeaderIfNoneMatch, HeaderIfModifiedSince, HeaderRFC3229}
  {
    var always := map[HeaderUserAgent := v.userAgent, HeaderAccept := v.accept,
                      HeaderAcceptEncode := v.acceptEncode, HeaderCacheControl := v.cacheControl,
                      HeaderReferer := v.referer];
    var withETag := if s.etag != "" then always[HeaderIfNoneMatch := s.etag] else always;
    var withModified := if s.modified != "" then withETag[HeaderIfModifiedSince := s.modified] else withETag;
    Request(MethodGet, url, withModified[HeaderRFC3229 := v.aim])
  }

  /** One `Fetch` from state `s`. */
  function FetchStep(url: string, s: Validators, t: Transport, v: HeaderValues): (r: Outcome)
    ensures r.feed.Some? <==> r.err.None?
    ensures r.err.Some? ==> r.after == s
    ensures r.err.Some? && r.err.value.HTTPValue? ==> !IsSuccess(r.err.value.http.code)
    ensures r.err.Some? ==> !r.err.value.HTTPPointer?
  {
    if t.requestError.Some? then Outcome(None, Some(Plain(t.requestError.value)), s)
    else match t.send(RequestFor(url, s, v))
      case Err(e) => Outcome(None, Some(Plain(e)), s)
      case Ok(rep) =>
        if rep.statusCode < 200 || rep.statusCode >= 300 then
          Outcome(None, Some(HTTPValue(HTTPError(rep.statusCode, rep.status))), s)
        else match rep.parsed
          case Err(e) => Outcome(None, Some(Plain(e)), s)
          case Ok(feed) =>
            Outcome(Some(feed), None, Validators(HeaderGet(rep.header, HeaderETag), HeaderGet(rep.header, HeaderLastModified)))
  }

  /** What the response to a fetch decides, when a response arrives: a
      non-2xx status (304 included) is an HTTPError value and leaves the state
      alone; a 2xx that parses overwrites both validators with the response
      headers, even empty ones; a 2xx that does not parse changes nothing. */
  lemma FetchStepResponses(url: string, s: Validators, t: Transport, v: HeaderValues)
    requires t.requestError.None? && t.send(RequestFor(url, s, v)).Ok?
    ensures var rep := t.send(RequestFor(url, s, v)).value;
      var r := FetchStep(url, s, t, v);
      && (!IsSuccess(rep.statusCode) ==> r == Outcome(None, Some(HTTPValue(HTTPError(rep.statusCode, rep.status))), s))
      && (IsSuccess(rep.statusCode) && rep.parsed.Ok? ==>
            r.feed == Some(rep.parsed.value) &&
            r.after == Validators(HeaderGet(rep.header, HeaderETag), HeaderGet(rep.header, HeaderLastModified)))
      && (IsSuccess(rep.statusCode) && rep.parsed.Err? ==> r == Outcome(None, Some(Plain(rep.parsed.error)), s))
  {
  }

  /** The conditional GET at work: after a fetch that stored an ETag, a server
      that answers 304 to a request carrying that tag in If-None-Match makes
      the next fetch return an HTTPError with code 304 and no feed. */
  lemma NotModifiedAfterETag(url: string, s: Validators, t1: Transport, t2: Transport, v: HeaderValues)
    requires FetchStep(url, s, t1, v).feed.Some? && FetchStep(url, s, t1, v).after.etag != ""
    requires t2.requestError.None?
    requires forall req: Request :: HeaderGet(req.header, HeaderIfNoneMatch) == FetchStep(url, s, t1, v).after.etag ==>
               t2.send(req).Ok? && t2.send(req).value.statusCode == StatusNotModified
    ensures var r := FetchStep(url, FetchStep(url, s, t1, v).after, t2, v);
      r.feed.None? && r.err.Some? && r.err.value.HTTPValue? && r.err.value.http.NotModified()
  {
    var s1 := FetchStep(url, s, t1, v).after;
    var req := RequestFor(url, s1, v);
    assert HeaderGet(req.header, HeaderIfNoneMatch) == s1.etag;
  }

  /** The same with Last-Modified sent back as If-Modified-Since. */
  lemma NotModifiedAfterLastModified(url: string, s: Validators, t1: Transport, t2: Transport, v: HeaderValues)
    requires FetchStep(url, s, t1, v).feed.Some? && FetchStep(url, s, t1, v).after.modified != ""
    requires t2.requestError.None?
    requires forall req: Request :: HeaderGet(req.header, HeaderIfModifiedSince) == FetchStep(url, s, t1, v).after.modified ==>
               t2.send(req).Ok? && t2.send(req).value.statusCode == StatusNotModified
    ensures var r := FetchStep(url, FetchStep(url, s, t1, v).after, t2, v);
      r.feed.None? && r.err.Some? && r.err.value.HTTPValue? && r.err.value.http.NotModified()
  {
    var s1 := FetchStep(url, s, t1, v).after;
    var req := RequestFor(url, s1, v);
    assert HeaderGet(req.header, HeaderIfModifiedSince) == s1.modified;
  }

  class FeedFetcher {
    const url: string
    var etag: string
    var modified: string

    /** `NewFeedFetcher(url)`: no validators yet. */
    constructor (url: string)
      ensures this.url == url && etag == "" && modified == ""
    {
      this.url := url;
      etag := "";
      modified := "";
    }

    function ETag(): (r: string)
      reads this
      ensures r == etag
    {
      etag
    }

    function Modified(): (r: string)
      reads this
      ensures r == modified
    {
      modified
    }

    /** `newRequest`: the GET request with its headers set one by one. */
    method NewRequest(t: Transport, v: HeaderValues) returns (r: Result<Request, Error>)
      ensures t.requestError.Some? ==> r == Err(Plain(t.requestError.value))
      ensures t.requestError.None? ==> r == Ok(RequestFor(url, Validators(etag, modified), v))
    {
      if t.requestError.Some? {
        return Err(Plain(t.requestError.value));
      }
      var header: Header := map[];
      header := header[HeaderUserAgent := v.userAgent];
      header := header[HeaderAccept := v.accept];
      header := header[HeaderAcceptEncode := v.acceptEncode];
      header := header[HeaderCacheControl := v.cacheControl];
      header := header[HeaderReferer := v.referer];
      if etag != "" {
        header := header[HeaderIfNoneMatch := etag];
      }
      if modified != "" {
        header := header[HeaderIfModifiedSince := modified];
      }
      header := header[HeaderRFC3229 := v.aim];
      r := Ok(Request(MethodGet, url, header));
    }

    /** `Fetch`: send the conditional request, reject non-2xx statuses, parse,
        and only then remember the response's validators. */
    method Fetch(t: Transport, v: HeaderValues) returns (feed: Option<Feed>, err: Option<Error>)
      modifies this
      ensures Outcome(feed, err, Validators(etag, modified)) == FetchStep(url, old(Validators(etag, modified)), t, v)
    {
      var req := NewRequest(t, v);
      if req.Err? {
        return None, Some(req.error);
      }
      var rep := t.send(req.value);
      if rep.Err? {
        return None, Some(Plain(rep.error));
      }
      if rep.value.statusCode < 200 || rep.value.statusCode >= 300 {
        return None, Some(HTTPValue(HTTPError(rep.value.statusCode, rep.value.status)));
      }
      if rep.value.parsed.Err? {
        return None, Some(Plain(rep.value.parsed.error));
      }
      feed := Some(rep.value.parsed.value);
      etag := HeaderGet(rep.value.header, HeaderETag);
      modified := HeaderGet(rep.value.header, HeaderLastModified);
      err := None;
    }
  }
}
