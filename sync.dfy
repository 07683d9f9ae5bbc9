/** sync.go: the feed manifest, and the synchronisation of one feed into an
    ordered list of events (one FeedSync, then one FeedItem per item). */
module Sync {
  import opened Common
  import opened Errors
  import Events
  import opened Messages
  import Web
  import opened FeedFetch
  import Config

  const ErrNotEnabled := "feed sync is not enabled"
  const ErrInterval := "interval must be 1s or greater"

  /** Everything one synchronisation takes from outside the process: the
      transport and header values of the fetch, the message codec, the clock
      (`now` for event fields, `created` for message metadata), the ULID
      handed to the i-th marshalled message, and the short UUID given to a
      new subscription without a feed ID. */
  datatype Env = Env(
    transport: Web.Transport, headers: HeaderValues, codec: Codec,
    now: Events.Time, created: string, ulid: nat -> string, shortUUID: string)

  // ---------------------------------------------------------------------
  // Manifest.Add merge rule

  /** The merged value of one field: a non-empty incoming value wins,
      otherwise the stored value stays. */
  function Prefer(incoming: string, stored: string): string
  {
    if incoming != "" then incoming else stored
  }

  /** The stored subscription after `Add` for a URL already present: FeedID,
      FeedType and SiteURL are merged, everything else is kept. */
  function Merged(stored: Events.Subscription, incoming: Events.Subscription): Events.Subscription
  {
    stored.(feedID := Prefer(incoming.feedID, stored.feedID),
            feedType := Prefer(incoming.feedType, stored.feedType),
            siteURL := Prefer(incoming.siteURL, stored.siteURL))
  }

  /** A non-empty incoming FeedID, FeedType or SiteURL replaces the stored
      one and an empty one keeps it; merging the same subscription twice
      changes nothing the second time, and the title and URL of the stored
      subscription are never touched. */
  lemma MergeProperties(stored: Events.Subscription, incoming: Events.Subscription)
    ensures Merged(Merged(stored, incoming), incoming) == Merged(stored, incoming)
    ensures Merged(stored, incoming).title == stored.title
    ensures Merged(stored, incoming).feedURL == stored.feedURL
    ensures incoming.feedID != "" ==> Merged(stored, incoming).feedID == incoming.feedID
    ensures incoming.feedID == "" ==> Merged(stored, incoming).feedID == stored.feedID
    ensures incoming.feedType != "" ==> Merged(stored, incoming).feedType == incoming.feedType
    ensures incoming.feedType == "" ==> Merged(stored, incoming).feedType == stored.feedType
    ensures incoming.siteURL != "" ==> Merged(stored, incoming).siteURL == incoming.siteURL
    ensures incoming.siteURL == "" ==> Merged(stored, incoming).siteURL == stored.siteURL
  {
  }

  // ---------------------------------------------------------------------
  // Author and enclosure rules of Feed.Sync

  /** The author string of one person, or "" when it is dropped. */
  function AuthorName(p: Web.Person): string
  {
    if p.name != "" && p.email != "" then p.name + " <" + p.email + ">"
    else if p.name != "" then p.name
    else if p.email != "" then p.email
    else ""
  }

  /** A person is dropped exactly when both name and email are empty; a name
      with an email is formatted `Name <Email>`. */
  lemma AuthorNameDropsOnlyAnonymous(p: Web.Person)
    ensures AuthorName(p) == "" <==> p.name == "" && p.email == ""
    ensures p.name != "" && p.email != "" ==> AuthorName(p) == p.name + " <" + p.email + ">"
    ensures p.name == "" ==> AuthorName(p) == p.email
    ensures p.email == "" ==> AuthorName(p) == p.name
  {
  }

  /** The authors of a feed item: the non-empty author names, in order. */
  function AuthorsOf(ps: seq<Web.Person>): seq<string>
  {
    if |ps| == 0 then []
    else AuthorsOf(ps[..|ps| - 1]) + (if AuthorName(ps[|ps| - 1]) != "" then [AuthorName(ps[|ps| - 1])] else [])
  }

  /** The author list is compositional over concatenation. */
  lemma {:induction false} AuthorsOfAppend(a: seq<Web.Person>, b: seq<Web.Person>)
    ensures AuthorsOf(a + b) == AuthorsOf(a) + AuthorsOf(b)
    decreases |b|
  {
    if |b| == 0 {
      assert a + b == a;
    } else {
      var b' := b[..|b| - 1];
      assert (a + b)[..|a + b| - 1] == a + b';
      assert (a + b)[|a + b| - 1] == b[|b| - 1];
      AuthorsOfAppend(a, b');
    }
  }

  /** The author list has at most one name per person and never an empty
      one. */
  lemma {:induction false} AuthorsOfBounds(ps: seq<Web.Person>)
    ensures |AuthorsOf(ps)| <= |ps|
    ensures forall s :: s in AuthorsOf(ps) ==> s != ""
  {
    if |ps| > 0 {
      AuthorsOfBounds(ps[..|ps| - 1]);
    }
  }

  /** Nothing but dropped persons is lost: when every person has a name or
      an email, the list is exactly their names, one per person and in the
      same order. */
  lemma {:induction false} AuthorsOfKeepsOrder(ps: seq<Web.Person>)
    requires forall i :: 0 <= i < |ps| ==> ps[i].name != "" || ps[i].email != ""
    ensures |AuthorsOf(ps)| == |ps|
    ensures forall i :: 0 <= i < |ps| ==> AuthorsOf(ps)[i] == AuthorName(ps[i])
  {
    if |ps| > 0 {
      var init, last := ps[..|ps| - 1], ps[|ps| - 1];
      assert forall i :: 0 <= i < |init| ==> init[i] == ps[i];
      AuthorsOfKeepsOrder(init);
      AuthorNameDropsOnlyAnonymous(last);
      assert AuthorsOf(ps) == AuthorsOf(init) + [AuthorName(last)];
    }
  }

  /** The `Authors` loop of Feed.Sync. */
  method CollectAuthors(ps: seq<Web.Person>) returns (names: seq<string>)
    ensures names == AuthorsOf(ps)
  {
    names := [];
    for k := 0 to |ps|
      invariant names == AuthorsOf(ps[..k])
    {
      assert ps[..k + 1][..k] == ps[..k];
      var name := "";
      if ps[k].name != "" && ps[k].email != "" {
        name := ps[k].name + " <" + ps[k].email + ">";
      } else if ps[k].name != "" {
        name := ps[k].name;
      } else if ps[k].email != "" {
        name := ps[k].email;
      }
      if name != "" {
        names := names + [name];
      }
    }
    assert ps[..|ps|] == ps;
  }

  /** The `Enclosures` loop of Feed.Sync: every enclosure URL, in order. */
  method CollectEnclosures(es: seq<Web.Enclosure>) returns (urls: seq<string>)
    ensures |urls| == |es|
    ensures forall i :: 0 <= i < |es| ==> urls[i] == es[i].url
  {
    urls := [];
    for k := 0 to |es|
      invariant |urls| == k
      invariant forall i :: 0 <= i < k ==> urls[i] == es[i].url
    {
      urls := urls + [es[k].url];
    }
  }

  // ---------------------------------------------------------------------
  // The events of one synchronisation

  /** The FeedSync event of a fetch that returned a feed; the validators are
      the fetcher's after the fetch. */
  function FeedSyncFor(info: Events.Subscription, v: Web.Validators, rss: Web.Feed, now: Events.Time): Events.FeedSync
  {
    Events.FeedSync(info.feedID, v.etag, v.modified, true, 0, "", now, |rss.items|,
      rss.title, rss.description, rss.link, rss.links, rss.feedLink, rss.updated,
      rss.published, rss.language, rss.copyright, rss.generator, rss.categories,
      rss.feedType, rss.feedVersion)
  }

  /** The inactive FeedSync event emitted for an `*fetch.HTTPError`. */
  function FailureFeedSync(info: Events.Subscription, e: HTTPError, now: Events.Time): Events.FeedSync
  {
    Events.FeedSync(info.feedID, "", "", false, e.code, e.status, now, 0,
      info.title, "", info.feedURL, [], "", "", "", "", "", "", [], info.feedType, "")
  }

  function ImageURL(image: Option<Web.Image>): string
  {
    if image.Some? then image.value.url else ""
  }

  function EnclosureURLs(es: seq<Web.Enclosure>): seq<string>
  {
    seq(|es|, i requires 0 <= i < |es| => es[i].url)
  }

  /** The FeedItem event of one item of the feed. */
  function FeedItemFor(feedID: string, item: Web.Item): Events.FeedItem
  {
    Events.FeedItem(feedID, item.title, item.description, item.content, item.link,
      item.updated, item.published, item.guid, AuthorsOf(item.authors),
      ImageURL(item.image), item.categories, EnclosureURLs(item.enclosures))
  }

  /** The FeedItem events of a feed's items, in item order. */
  function ItemEvents(feedID: string, items: seq<Web.Item>): (es: seq<Events.Event>)
    ensures |es| == |items|
    ensures forall i :: 0 <= i < |items| ==> es[i] == Events.FeedItemEvent(FeedItemFor(feedID, items[i]))
  {
    seq(|items|, i requires 0 <= i < |items| => Events.FeedItemEvent(FeedItemFor(feedID, items[i])))
  }

  /** The events of a successful synchronisation, in publishing order. */
  function SyncEvents(info: Events.Subscription, v: Web.Validators, rss: Web.Feed, now: Events.Time): (es: seq<Events.Event>)
    ensures |es| == |rss.items| + 1
    ensures es[0] == Events.FeedSyncEvent(FeedSyncFor(info, v, rss, now))
    ensures es[0].feedSync.active && es[0].feedSync.feedItems == |rss.items|
    ensures forall i :: 0 <= i < |rss.items| ==> es[i + 1] == Events.FeedItemEvent(FeedItemFor(info.feedID, rss.items[i]))
    ensures forall i :: 1 <= i < |es| ==> es[i].FeedItemEvent? && es[i].feedItem.feedID == info.feedID
  {
    [Events.FeedSyncEvent(FeedSyncFor(info, v, rss, now))] + ItemEvents(info.feedID, rss.items)
  }

  // ---------------------------------------------------------------------
  // Marshalling a list of events, stopping at the first failure

  /** The encoder's error for the first event it cannot encode. */
  function FirstEncodeFailure(c: Codec, es: seq<Events.Event>): Option<string>
  {
    if |es| == 0 then None
    else if c.encode(es[0]).Err? then Some(c.encode(es[0]).error)
    else FirstEncodeFailure(c, es[1..])
  }

  /** There is a first failure exactly when some event does not encode, and
      it is the failure of the earliest such event. */
  lemma {:induction false} FirstEncodeFailureAt(c: Codec, es: seq<Events.Event>, k: nat)
    requires k <= |es|
    requires forall i :: 0 <= i < k ==> c.encode(es[i]).Ok?
    ensures k < |es| && c.encode(es[k]).Err? ==> FirstEncodeFailure(c, es) == Some(c.encode(es[k]).error)
    ensures k == |es| ==> FirstEncodeFailure(c, es) == None
  {
    if k > 0 {
      FirstEncodeFailureAt(c, es[1..], k - 1);
    }
  }

  /** Message i is event i marshalled under the ULID numbered `offset + i`. */
  ghost predicate MarshaledFromAt(msgs: seq<Message>, env: Env, es: seq<Events.Event>, offset: nat)
  {
    |msgs| == |es| &&
    forall i :: 0 <= i < |es| ==> MarshaledFrom(msgs[i], env.codec, es[i], env.ulid(offset + i), env.created)
  }

  /** `msgs` and `err` are what marshalling `es` in order gives, the first
      under the ULID numbered `offset`: either every event encodes and
      message i is event i, or the first encoder error is returned with no
      messages. */
  ghost predicate MarshaledAllAt(msgs: seq<Message>, err: Option<Error>, env: Env, es: seq<Events.Event>, offset: nat)
  {
    && (FirstEncodeFailure(env.codec, es).Some? ==> msgs == [] && err == Some(Plain(FirstEncodeFailure(env.codec, es).value)))
    && (FirstEncodeFailure(env.codec, es).None? ==> err.None? && MarshaledFromAt(msgs, env, es, offset))
  }

  /** Marshalling from the first ULID on. */
  ghost predicate MarshaledAll(msgs: seq<Message>, err: Option<Error>, env: Env, es: seq<Events.Event>)
  {
    MarshaledAllAt(msgs, err, env, es, 0)
  }

  /** The FeedItem built inside the item loop of `Feed.Sync`. */
  method ItemEvent(feedID: string, item: Web.Item) returns (fitem: Events.FeedItem)
    ensures fitem == FeedItemFor(feedID, item)
  {
    var authors := CollectAuthors(item.authors);
    var enclosures := CollectEnclosures(item.enclosures);
    var image := "";
    if item.image.Some? {
      image := item.image.value.url;
    }
    fitem := Events.FeedItem(feedID, item.title, item.description, item.content,
      item.link, item.updated, item.published, item.guid, authors, image, item.categories, enclosures);
  }

  /** The error path of `Feed.Sync`: an `*fetch.HTTPError` becomes one
      inactive FeedSync event, any other error is returned as it is. */
  method SyncFailed(env: Env, info: Events.Subscription, e: Error) returns (msgs: seq<Message>, err: Option<Error>)
    ensures e.HTTPPointer? ==> MarshaledAll(msgs, err, env, [Events.FeedSyncEvent(FailureFeedSync(info, e.http, env.now))])
    ensures !e.HTTPPointer? ==> msgs == [] && err == Some(e)
  {
    var httperr := e.AsHTTPPointer();
    if httperr.Some? {
      ghost var es := [Events.FeedSyncEvent(FailureFeedSync(info, e.http, env.now))];
      var fsync := FailureFeedSync(info, httperr.value, env.now);
      var msg := Marshal(env.codec, Events.FeedSyncEvent(fsync), env.ulid(0), env.created);
      if msg.Err? {
        FirstEncodeFailureAt(env.codec, es, 0);
        return [], Some(msg.error);
      }
      FirstEncodeFailureAt(env.codec, es, 1);
      return [msg.value], None;
    }
    return [], Some(e);
  }

  /** The item loop of `Feed.Sync`: one FeedItem message per item, the
      k-th under the ULID numbered k + 1, stopping at the first encoder
      error. */
  method MarshalItems(env: Env, feedID: string, items: seq<Web.Item>) returns (msgs: seq<Message>, err: Option<Error>)
    ensures MarshaledAllAt(msgs, err, env, ItemEvents(feedID, items), 1)
  {
    ghost var es := ItemEvents(feedID, items);
    msgs := [];
    for k := 0 to |items|
      invariant MarshaledFromAt(msgs, env, es[..k], 1)
    {
      var fitem := ItemEvent(feedID, items[k]);
      var msg := Marshal(env.codec, Events.FeedItemEvent(fitem), env.ulid(k + 1), env.created);
      if msg.Err? {
        FirstEncodeFailureAt(env.codec, es, k);
        return [], Some(msg.error);
      }
      msgs := msgs + [msg.value];
    }
    assert es[..|items|] == es;
    FirstEncodeFailureAt(env.codec, es, |es|);
    err := None;
  }

  /** The success path of `Feed.Sync`: marshal the FeedSync event, then the
      items' events, stopping at the first encoder error. */
  method PublishSync(env: Env, info: Events.Subscription, v: Web.Validators, rss: Web.Feed) returns (msgs: seq<Message>, err: Option<Error>)
    ensures MarshaledAll(msgs, err, env, SyncEvents(info, v, rss, env.now))
  {
    ghost var es := SyncEvents(info, v, rss, env.now);
    ghost var rest := ItemEvents(info.feedID, rss.items);
    assert es == [es[0]] + rest;
    var fsync := FeedSyncFor(info, v, rss, env.now);
    var msg := Marshal(env.codec, Events.FeedSyncEvent(fsync), env.ulid(0), env.created);
    if msg.Err? {
      return [], Some(msg.error);
    }
    assert es[1..] == rest;
    var items, ierr := MarshalItems(env, info.feedID, rss.items);
    if ierr.Some? {
      return [], ierr;
    }
    msgs := [msg.value] + items;
    err := None;
  }

  /** What synchronising the feed of `info` at `url` gives, when its
      fetcher holds the validators `before` and ends with `after`: a feed
      becomes its SyncEvents, and an error is returned as it is with no
      messages. The fetcher reports HTTP failures as `HTTPError` values,
      never as pointers, so the inactive FeedSync of the error path is never
      emitted. */
  ghost predicate Synced(msgs: seq<Message>, err: Option<Error>, env: Env, info: Events.Subscription,
                         url: string, before: Web.Validators, after: Web.Validators)
  {
    var o := FetchStep(url, before, env.transport, env.headers);
    && after == o.after
    && (o.feed.Some? ==> MarshaledAll(msgs, err, env, SyncEvents(info, o.after, o.feed.value, env.now)))
    && (o.err.Some? ==> msgs == [] && err == o.err)
  }

  // ---------------------------------------------------------------------
  // Feed, Manifest and FeedSync

  class Feed {
    var info: Events.Subscription
    const fetcher: FeedFetcher

    constructor (info: Events.Subscription, fetcher: FeedFetcher)
      ensures this.info == info && this.fetcher == fetcher
    {
      this.info := info;
      this.fetcher := fetcher;
    }

    /** `Feed.Sync`: fetch, then turn the outcome into messages. */
    method Sync(env: Env) returns (msgs: seq<Message>, err: Option<Error>)
      modifies fetcher
      ensures Synced(msgs, err, env, info, fetcher.url, old(Web.Validators(fetcher.etag, fetcher.modified)),
                     Web.Validators(fetcher.etag, fetcher.modified))
    {
      var rss, ferr := fetcher.Fetch(env.transport, env.headers);
      if ferr.Some? {
        msgs, err := SyncFailed(env, info, ferr.value);
        return;
      }
      msgs, err := PublishSync(env, info, Web.Validators(fetcher.ETag(), fetcher.Modified()), rss.value);
    }
  }

  /** `Manifest`: the feeds being synchronised, keyed by feed URL. */
  class Manifest {
    var feeds: map<string, Feed>

    /** Every feed sits under its own URL and fetches from it. */
    ghost predicate Valid()
      reads this, feeds.Values
    {
      forall u :: u in feeds ==> feeds[u].info.feedURL == u && feeds[u].fetcher.url == u
    }

    constructor ()
      ensures feeds == map[] && Valid()
    {
      feeds := map[];
    }

    /** `Manifest.Add`: merge into the feed stored under the subscription's
        URL, or store a new feed (with a fresh fetcher, and `newID` as its
        feed ID when the subscription has none). */
    method Add(info: Events.Subscription, newID: string) returns (feed: Feed)
      requires Valid()
      modifies this, feeds.Values
      ensures Valid()
      ensures info.feedURL in feeds && feeds[info.feedURL] == feed
      ensures info.feedURL in old(feeds) ==>
                feeds == old(feeds) && feed.info == Merged(old(feed.info), info)
      ensures info.feedURL !in old(feeds) ==>
                && fresh(feed) && fresh(feed.fetcher)
                && feeds == old(feeds)[info.feedURL := feed]
                && feed.info == info.(feedID := if info.feedID == "" then newID else info.feedID)
                && feed.fetcher.etag == "" && feed.fetcher.modified == ""
      ensures forall u :: u in old(feeds) && u != info.feedURL ==> feeds[u] == old(feeds[u]) && feeds[u].info == old(feeds[u].info)
      ensures Web.Validators(feed.fetcher.etag, feed.fetcher.modified) == old(ValidatorsAt(this, info.feedURL))
      ensures forall u :: u in old(feeds) ==>
                feeds[u].fetcher.etag == old(feeds[u].fetcher.etag) && feeds[u].fetcher.modified == old(feeds[u].fetcher.modified)
    {
      if info.feedURL in feeds {
        feed := feeds[info.feedURL];
        if feed.info.feedID == "" || (info.feedID != "" && feed.info.feedID != info.feedID) {
          feed.info := feed.info.(feedID := info.feedID);
        }
        if feed.info.feedType == "" || (info.feedType != "" && feed.info.feedType != info.feedType) {
          feed.info := feed.info.(feedType := info.feedType);
        }
        if feed.info.siteURL == "" || (info.siteURL != "" && feed.info.siteURL != info.siteURL) {
          feed.info := feed.info.(siteURL := info.siteURL);
        }
        return;
      }

      var stored := info;
      if info.feedID == "" {
        stored := stored.(feedID := newID);
      }
      var fetcher := new FeedFetcher(info.feedURL);
      feed := new Feed(stored, fetcher);
      feeds := feeds[info.feedURL := feed];
    }

    /** `feed.Sync()` on the feed stored under `url`: only that feed's
        fetcher changes, since every other fetcher fetches from another URL. */
    method SyncAt(url: string, env: Env) returns (msgs: seq<Message>, err: Option<Error>)
      requires Valid() && url in feeds
      modifies feeds[url].fetcher
      ensures forall u :: u in feeds && u != url ==>
                feeds[u].fetcher.etag == old(feeds[u].fetcher.etag) &&
                feeds[u].fetcher.modified == old(feeds[u].fetcher.modified)
      ensures forall u :: u in feeds ==> feeds[u].info == old(feeds[u].info)
      ensures Synced(msgs, err, env, feeds[url].info, url,
                     old(Web.Validators(feeds[url].fetcher.etag, feeds[url].fetcher.modified)),
                     Web.Validators(feeds[url].fetcher.etag, feeds[url].fetcher.modified))
    {
      var feed := feeds[url];
      assert forall u :: u in feeds && u != url ==> feeds[u].fetcher != feed.fetcher;
      msgs, err := feed.Sync(env);
    }
  }

  /** The set of fetchers of the manifest's feeds. */
  ghost function Fetchers(m: Manifest): set<FeedFetcher>
    reads m, m.feeds.Values
  {
    set f | f in m.feeds.Values :: f.fetcher
  }

  /** The validators the fetcher of the feed at `url` holds; a feed not in
      the manifest yet starts with none. */
  ghost function ValidatorsAt(m: Manifest, url: string): Web.Validators
    reads m, m.feeds.Values, Fetchers(m)
  {
    if url in m.feeds then Web.Validators(m.feeds[url].fetcher.etag, m.feeds[url].fetcher.modified)
    else Web.Validators("", "")
  }

  /** `FeedSync`: the configuration and the manifest; the publisher and the
      stop channel belong to the background routine, which is not modelled. */
  class FeedSync {
    const conf: Config.FeedSyncConfig
    const manifest: Manifest

    constructor (conf: Config.FeedSyncConfig)
      ensures this.conf == conf && fresh(manifest) && manifest.feeds == map[] && manifest.Valid()
    {
      this.conf := conf;
      manifest := new Manifest();
    }

    /** `FeedSync.Handle`: unmarshal the subscription, ignore it when it has
        no URL, otherwise add it to the manifest and synchronise that feed
        at once. */
    method Handle(msg: Message, env: Env) returns (msgs: seq<Message>, err: Option<Error>)
      requires manifest.Valid()
      modifies manifest, manifest.feeds.Values, Fetchers(manifest)
      ensures manifest.Valid()
      ensures UnmarshalSubscription(env.codec, msg).Err? ==>
                && msgs == [] && err == Some(UnmarshalSubscription(env.codec, msg).error)
                && unchanged(manifest) && unchanged(manifest.feeds.Values) && unchanged(Fetchers(manifest))
      ensures UnmarshalSubscription(env.codec, msg).Ok? && UnmarshalSubscription(env.codec, msg).value.feedURL == "" ==>
                && msgs == [] && err.None?
                && unchanged(manifest) && unchanged(manifest.feeds.Values) && unchanged(Fetchers(manifest))
      ensures UnmarshalSubscription(env.codec, msg).Ok? && UnmarshalSubscription(env.codec, msg).value.feedURL != "" ==>
                var sub := UnmarshalSubscription(env.codec, msg).value;
                var url := sub.feedURL;
                && manifest.feeds.Keys == old(manifest.feeds.Keys) + {url}
                && (url in old(manifest.feeds) ==>
                      manifest.feeds[url] == old(manifest.feeds[url]) &&
                      manifest.feeds[url].info == Merged(old(manifest.feeds[url].info), sub))
                && (url !in old(manifest.feeds) ==>
                      manifest.feeds[url].info == sub.(feedID := if sub.feedID == "" then env.shortUUID else sub.feedID))
                && (forall u :: u in old(manifest.feeds) && u != url ==>
                      && manifest.feeds[u] == old(manifest.feeds[u])
                      && manifest.feeds[u].info == old(manifest.feeds[u].info)
                      && manifest.feeds[u].fetcher.etag == old(manifest.feeds[u].fetcher.etag)
                      && manifest.feeds[u].fetcher.modified == old(manifest.feeds[u].fetcher.modified))
                && Synced(msgs, err, env, manifest.feeds[url].info, url, old(ValidatorsAt(manifest, url)),
                          Web.Validators(manifest.feeds[url].fetcher.etag, manifest.feeds[url].fetcher.modified))
    {
      var info := UnmarshalSubscription(env.codec, msg);
      if info.Err? {
        return [], Some(info.error);
      }
      if info.value.feedURL == "" {
        return [], None;
      }
      msgs, err := Subscribe(info.value, env);
    }

    /** The end of `FeedSync.Handle`: add the subscription to the manifest
        and synchronise its feed at once. */
    method Subscribe(sub: Events.Subscription, env: Env) returns (msgs: seq<Message>, err: Option<Error>)
      requires manifest.Valid()
      modifies manifest, manifest.feeds.Values, Fetchers(manifest)
      ensures manifest.Valid()
      ensures manifest.feeds.Keys == old(manifest.feeds.Keys) + {sub.feedURL}
      ensures sub.feedURL in old(manifest.feeds) ==>
                manifest.feeds[sub.feedURL] == old(manifest.feeds[sub.feedURL]) &&
                manifest.feeds[sub.feedURL].info == Merged(old(manifest.feeds[sub.feedURL].info), sub)
      ensures sub.feedURL !in old(manifest.feeds) ==>
                manifest.feeds[sub.feedURL].info == sub.(feedID := if sub.feedID == "" then env.shortUUID else sub.feedID)
      ensures forall u :: u in old(manifest.feeds) && u != sub.feedURL ==>
                && manifest.feeds[u] == old(manifest.feeds[u])
                && manifest.feeds[u].info == old(manifest.feeds[u].info)
                && manifest.feeds[u].fetcher.etag == old(manifest.feeds[u].fetcher.etag)
                && manifest.feeds[u].fetcher.modified == old(manifest.feeds[u].fetcher.modified)
      ensures var feed := manifest.feeds[sub.feedURL];
        Synced(msgs, err, env, feed.info, sub.feedURL, old(ValidatorsAt(manifest, sub.feedURL)),
               Web.Validators(feed.fetcher.etag, feed.fetcher.modified))
    {
      var feed := manifest.Add(sub, env.shortUUID);
      msgs, err := manifest.SyncAt(sub.feedURL, env);
    }

    /** The guard of `FeedSync.Start`; the ticker routine it launches is not
        modelled. */
    method Start() returns (err: Option<Error>)
      ensures err.Some? <==> conf.interval < Config.Second
      ensures err.Some? ==> err.value == Plain(ErrInterval)
    {
      if conf.interval < Config.Second {
        return Some(Plain(ErrInterval));
      }
      return None;
    }
  }

  /** `NewFeedSync`: refuses a disabled configuration. */
  method NewFeedSync(conf: Config.FeedSyncConfig) returns (r: Result<FeedSync, Error>)
    ensures r.Err? <==> !conf.enabled
    ensures r.Err? ==> r.error == Plain(ErrNotEnabled)
    ensures r.Ok? ==> fresh(r.value) && r.value.conf == conf && r.value.manifest.feeds == map[] && r.value.manifest.Valid()
  {
    if !conf.enabled {
      return Err(Plain(ErrNotEnabled));
    }
    var fsync := new FeedSync(conf);
    return Ok(fsync);
  }
}
