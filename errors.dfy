/** fetch/error.go: the HTTPError value the fetchers return for a non-2xx
    status, and Go's `error` interface as the model carries it.

    Go distinguishes the dynamic types `fetch.HTTPError` and `*fetch.HTTPError`
    inside an `error`; a type assertion for one never matches the other. The
    model keeps the two apart as HTTPValue and HTTPPointer. */
module Errors {
  import opened Common
  import Text

  /** http.StatusNotModified (section 4.1 of RFC 7232) and http.StatusNotFound. */
  const StatusNotModified := 304
  const StatusNotFound := 404

  const ErrorPrefix := "http error "

  datatype HTTPError = HTTPError(code: int, status: string) {

    /** `Error()`: "http error <Code>: <Status>". */
    function Error(): (s: string)
      ensures |s| > |ErrorPrefix| && s[..|ErrorPrefix|] == ErrorPrefix
    {
      ErrorPrefix + Text.IntToString(code) + ": " + status
    }

    predicate NotModified() { code == StatusNotModified }

    predicate NotFound() { code == StatusNotFound }
  }

  /** Reads an HTTPError back from its `Error()` text: the partner of Error. */
  function ParseHTTPError(s: string): Option<HTTPError>
  {
    if |s| < |ErrorPrefix| || s[..|ErrorPrefix|] != ErrorPrefix then None
    else
      var rest := s[|ErrorPrefix|..];
      var i := Text.FirstIndex(rest, ':');
      if i + 1 >= |rest| || rest[i + 1] != ' ' then None
      else match Text.ParseInt(rest[..i])
        case None => None
        case Some(code) => Some(HTTPError(code, rest[i + 2..]))
  }

  lemma NoColonInDecimal(n: int)
    ensures ':' !in Text.IntToString(n)
  {
    var s := Text.IntToString(n);
    if n < 0 {
      assert s == "-" + Text.NatToString(-n);
      assert forall k :: 1 <= k < |s| ==> s[k] == Text.NatToString(-n)[k - 1];
    }
  }

  /** The message of an HTTPError determines its code and status. */
  lemma ErrorRoundTrip(e: HTTPError)
    ensures ParseHTTPError(e.Error()) == Some(e)
  {
    var d := Text.IntToString(e.code);
    var s := e.Error();
    var rest := s[|ErrorPrefix|..];
    assert rest == d + ": " + e.status;
    NoColonInDecimal(e.code);
    assert rest[|d|] == ':';
    assert forall k :: 0 <= k < |d| ==> rest[k] == d[k];
    assert Text.FirstIndex(rest, ':') == |d|;
    assert rest[..|d|] == d;
    assert rest[|d| + 2..] == e.status;
    Text.IntToStringRoundTrip(e.code);
  }

  /** `NotModified()` holds iff the code is 304, `NotFound()` iff it is 404,
      so no HTTPError is both. */
  lemma NotModifiedExcludesNotFound(e: HTTPError)
    ensures e.NotModified() <==> e.code == 304
    ensures e.NotFound() <==> e.code == 404
    ensures !(e.NotModified() && e.NotFound())
  {
  }

  /** A Go `error` as the model carries it. */
  datatype Error =
    | Plain(text: string)            // errors.New / fmt.Errorf
    | HTTPValue(http: HTTPError)     // a fetch.HTTPError stored by value
    | HTTPPointer(http: HTTPError)   // a *fetch.HTTPError
  {
    /** `err.Error()` */
    function Message(): string
    {
      match this
      case Plain(t) => t
      case HTTPValue(h) => h.Error()
      case HTTPPointer(h) => h.Error()
    }

    /** The Go type assertion `err.(*fetch.HTTPError)`. */
    function AsHTTPPointer(): (r: Option<HTTPError>)
      ensures r.Some? <==> HTTPPointer?
    {
      if HTTPPointer? then Some(http) else None
    }
  }

  /** A value HTTPError never passes the pointer type assertion. */
  lemma ValueIsNotPointer(h: HTTPError)
    ensures HTTPValue(h).AsHTTPPointer() == None
    ensures HTTPPointer(h).AsHTTPPointer() == Some(h)
  {
  }
}
