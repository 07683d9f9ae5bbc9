/** events/events.go: the four Baleen event kinds, and the name/version table
    each reports through `Type()`. */
module Events {
  import opened Common

  const TypeSubscription := "Subscription"
  const TypeFeedSync := "FeedSync"
  const TypeFeedItem := "FeedItem"
  const TypeDocument := "Document"

  /** Versions are Go `uint32` values. */
  const VersionSubscription: nat := 1
  const VersionFeedSync: nat := 1
  const VersionFeedItem: nat := 1
  const VersionDocument: nat := 1

  /** A `time.Time`; the model never looks inside it. */
  type Time = int

  /** The `*fetch.HTML` page the post fetcher returns: its buffered body, the
      Content-Type and the Content-Encoding of the response. */
  datatype HTMLPage = HTMLPage(body: seq<bv8>, contentType: string, encoding: string)

  /** `api.Type` */
  datatype EventType = EventType(name: string, version: nat)

  datatype Subscription = Subscription(
    feedID: string, title: string, feedType: string, feedURL: string, siteURL: string)
  {
    function Type(): (t: EventType)
      ensures t.name == "Subscription" && t.version == 1
    {
      EventType(TypeSubscription, VersionSubscription)
    }
  }

  datatype FeedSync = FeedSync(
    feedID: string, etag: string, lastModified: string, active: bool,
    statusCode: int, error: string, syncedAt: Time, feedItems: int,
    title: string, description: string, link: string, links: seq<string>,
    feedLink: string, updated: string, published: string, language: string,
    copyright: string, generator: string, categories: seq<string>,
    feedType: string, feedVersion: string)
  {
    function Type(): (t: EventType)
      ensures t.name == "FeedSync" && t.version == 1
    {
      EventType(TypeFeedSync, VersionFeedSync)
    }
  }

  datatype FeedItem = FeedItem(
    feedID: string, title: string, description: string, content: string,
    link: string, updated: string, published: string, guid: string,
    authors: seq<string>, image: string, categories: seq<string>,
    enclosures: seq<string>)
  {
    function Type(): (t: EventType)
      ensures t.name == "FeedItem" && t.version == 1
    {
      EventType(TypeFeedItem, VersionFeedItem)
    }
  }

  /** `Content` is declared `[]byte`, but the only writer in this service
      (posts.go) assigns it the fetched page, so it is carried as that opaque
      page; `None` is Go's nil. */
  datatype Document = Document(
    etag: string, lastModified: string, active: bool, statusCode: int,
    error: string, fetchedAt: Time, feedID: string, language: string,
    year: int, month: string, day: int, title: string, description: string,
    content: Option<HTMLPage>, encoding: string, link: string)
  {
    function Type(): (t: EventType)
      ensures t.name == "Document" && t.version == 1
    {
      EventType(TypeDocument, VersionDocument)
    }
  }

  /** A `TypedEvent` of one of the four kinds. */
  datatype Event =
    | SubscriptionEvent(subscription: Subscription)
    | FeedSyncEvent(feedSync: FeedSync)
    | FeedItemEvent(feedItem: FeedItem)
    | DocumentEvent(document: Document)
  {
    function Type(): EventType
    {
      match this
      case SubscriptionEvent(s) => s.Type()
      case FeedSyncEvent(f) => f.Type()
      case FeedItemEvent(i) => i.Type()
      case DocumentEvent(d) => d.Type()
    }
  }

  /** The four type names are pairwise distinct and every version is 1, so an
      event's type name alone tells which kind it is. */
  lemma TypeNamesIdentifyKinds(e: Event, f: Event)
    ensures e.Type().version == 1
    ensures e.Type().name in {TypeSubscription, TypeFeedSync, TypeFeedItem, TypeDocument}
    ensures e.Type().name == f.Type().name <==>
      (e.SubscriptionEvent? && f.SubscriptionEvent?) || (e.FeedSyncEvent? && f.FeedSyncEvent?) ||
      (e.FeedItemEvent? && f.FeedItemEvent?) || (e.DocumentEvent? && f.DocumentEvent?)
  {
    assert TypeSubscription != TypeFeedSync && TypeSubscription != TypeFeedItem;
    assert TypeSubscription != TypeDocument && TypeFeedSync != TypeFeedItem;
    assert TypeFeedSync != TypeDocument && TypeFeedItem != TypeDocument;
  }
}
