/** posts.go: the post-fetch handler, which turns a FeedItem event into a
    Document event holding the item's fetched web page. */
module Posts {
  import opened Common
  import opened Errors
  import Events
  import opened Messages
  import Config

  const ErrNotEnabled := "post fetch is not enabled"

  /** What one post fetch takes from outside the process: the codec, the
      clock, the ULID of the emitted message, and what the HTML fetcher
      returns for a link. */
  datatype Env = Env(
    codec: Codec, now: Events.Time, created: string, ulid: string,
    fetchHTML: string -> Result<Events.HTMLPage, Error>)

  /** The guard of `AddPostFetch`; the router wiring after it is not
      modelled. */
  function AddPostFetch(conf: Config.PostFetchConfig): (r: Option<Error>)
    ensures r.Some? <==> !conf.enabled
    ensures r.Some? ==> r.value == Plain(ErrNotEnabled)
  {
    if !conf.enabled then Some(Plain(ErrNotEnabled)) else None
  }

  /** The Document emitted for an item whose link was fetched with outcome
      `fetched`; none when the fetch failed with anything but an
      `*fetch.HTTPError`. */
  function DocumentFor(item: Events.FeedItem, fetched: Result<Events.HTMLPage, Error>, now: Events.Time): (d: Option<Events.Document>)
    ensures d.None? <==> fetched.Err? && !fetched.error.HTTPPointer?
    ensures d.Some? ==> d.value.title == item.title && d.value.description == item.description && d.value.link == item.link
    ensures d.Some? ==> d.value.feedID == item.feedID && d.value.fetchedAt == now
    ensures d.Some? ==> (d.value.active <==> fetched.Ok?)
    ensures d.Some? ==> d.value.etag == "" && d.value.lastModified == "" && d.value.language == "" &&
                        d.value.year == 0 && d.value.month == "" && d.value.day == 0 && d.value.encoding == ""
    ensures d.Some? && fetched.Ok? ==> d.value.content == Some(fetched.value) && d.value.statusCode == 0 && d.value.error == ""
    ensures d.Some? && fetched.Err? ==>
              d.value.content.None? && d.value.statusCode == fetched.error.http.code && d.value.error == fetched.error.http.status
  {
    var base := Events.Document("", "", true, 0, "", now, item.feedID, "", 0, "", 0,
                                item.title, item.description, None, "", item.link);
    match fetched
    case Ok(page) => Some(base.(content := Some(page)))
    case Err(e) =>
      if e.HTTPPointer? then Some(base.(active := false, statusCode := e.http.code, error := e.http.status))
      else None
  }

  /** `PostFetch`: unmarshal the item, skip it without a link, fetch the
      link, and emit one Document message. */
  method PostFetch(msg: Message, env: Env) returns (msgs: seq<Message>, err: Option<Error>)
    ensures UnmarshalFeedItem(env.codec, msg).Err? ==> msgs == [] && err == Some(UnmarshalFeedItem(env.codec, msg).error)
    ensures UnmarshalFeedItem(env.codec, msg).Ok? ==>
      var item := UnmarshalFeedItem(env.codec, msg).value;
      && (item.link == "" ==> msgs == [] && err.None?)
      && (item.link != "" ==>
            var fetched := env.fetchHTML(item.link);
            var doc := DocumentFor(item, fetched, env.now);
            && (doc.None? ==> msgs == [] && err == Some(fetched.error))
            && (doc.Some? && env.codec.encode(Events.DocumentEvent(doc.value)).Err? ==>
                  msgs == [] && err == Some(Plain(env.codec.encode(Events.DocumentEvent(doc.value)).error)))
            && (doc.Some? && env.codec.encode(Events.DocumentEvent(doc.value)).Ok? ==>
                  err.None? && |msgs| == 1 &&
                  MarshaledFrom(msgs[0], env.codec, Events.DocumentEvent(doc.value), env.ulid, env.created)))
  {
    var event := UnmarshalFeedItem(env.codec, msg);
    if event.Err? {
      return [], Some(event.error);
    }
    var item := event.value;
    if item.link == "" {
      return [], None;
    }

    var doc := Events.Document("", "", true, 0, "", env.now, item.feedID, "", 0, "", 0, "", "", None, "", "");
    var fetched := env.fetchHTML(item.link);
    if fetched.Err? {
      var httperr := fetched.error.AsHTTPPointer();
      if httperr.None? {
        return [], Some(fetched.error);
      }
      doc := doc.(active := false);
      doc := doc.(statusCode := httperr.value.code);
      doc := doc.(error := httperr.value.status);
    } else {
      doc := doc.(content := Some(fetched.value));
    }

    doc := doc.(title := item.title);
    doc := doc.(description := item.description);
    doc := doc.(link := item.link);

    var out := Marshal(env.codec, Events.DocumentEvent(doc), env.ulid, env.created);
    if out.Err? {
      return [], Some(out.error);
    }
    return [out.value], None;
  }
}
