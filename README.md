# Baleen, modelled in Dafny

Baleen is a language-ingestion service. It keeps a manifest of RSS/Atom
subscriptions and fetches each feed with conditional GETs (ETag and
Last-Modified, sections 3.2, 3.3 and 4.1 of RFC 7232; `A-IM: feed`,
section 10.5.3 of RFC 3229). Each synchronisation becomes an ordered list of
events, one FeedSync and then one FeedItem per item. The events are wrapped
into watermill messages with Ensign metadata and published. A post-fetch
handler turns each FeedItem into a Document holding the fetched page. A small
React admin UI searches a menu tree, keeps a vocabulary slice in a Redux
store, maps HTTP errors to messages and builds query strings.

This project models those parts one Dafny module per source file:

- `Sync`: `sync.go`. `Manifest`, `Feed` and `FeedSync` are classes; `Manifest.Add` mutates the map and the stored feed in place.
- `FeedFetch` and `HttpFetch`: `fetch/feed.go` and `fetch/fetch.go`. Each fetcher is a class whose `etag` and `modified` fields change step by step. Each also has a function `FetchStep` giving one fetch from a given state, which its `Fetch` method is proved against.
- `Errors`: `fetch/error.go`. It also models Go's `error` interface, keeping an `HTTPError` stored by value apart from a `*HTTPError`.
- `Config`, `Events`, `Messages`, `Opml`, `Middleware`, `PubSub`, `Kafka`, `Posts` and `Version`: the files of the same names.
- `Menu`, `Vocabulary`, `Interceptor` and `Api`: the admin-UI helpers `helpers/menu.ts`, `redux/vocabulary/{reducers,actions}.ts`, `helpers/api/error.interceptor.ts` and `helpers/api/index.ts`.
- `Common`, `Text`, `Web` and `Base64` are shared support:
  - Option and Result;
  - decimal rendering, join and split;
  - the net/http and gofeed values the fetchers touch;
  - the unpadded standard base64 of section 4 of RFC 4648 that `publish/kafka.go` applies to document content.

Everything that reaches outside the process is a parameter:

- the transport (`client.Do` and `http.NewRequest`) and the header values of `fetch/feed.go`;
- the generated MessagePack codec: an abstract `Codec`, assumed to round-trip only where a lemma requires `RoundTrips`;
- `json.Marshal`, the Kafka writer and the HTML fetcher;
- the clock, ULID and short-UUID generators, and the process environment.

The quirks of the source are reproduced, not fixed:

- `sync.go` and `posts.go` test for a `*fetch.HTTPError`, but the fetchers return the value type. As a result, the inactive FeedSync of `Feed.Sync`'s error path is never emitted: the contract of `Feed.Sync` says that every fetch error comes back unchanged with no messages. The same holds for `PostFetch`: the HTML fetcher of fetch/html.go:63 also returns a value `HTTPError`, so with the real fetcher `posts.go` returns the error and no Document. The model takes the HTML fetcher as a parameter, so `DocumentFor`'s inactive Document can still be reached there.
- `version.go` renders the minor number in the patch position.
- The error action creator of `actions.ts` is tagged with the SUCCESS type, so the reducer stores `undefined` and the error is lost.
- `error.interceptor.ts` rejects a 404 with the error object itself.
- `helpers/api/index.ts` registers the error interceptor on the global `axios` (line 15), but `apiCore.get` sends its requests through `instance`, made by `axios.create` (lines 13, 29 and 31). An instance does not share the global interceptors, so `apiCore.get`'s errors do not pass through `AxiosErrorInterceptor`. The model states the interceptor and the URL separately and does not connect them.

## Model

| member | source | states |
|---|---|---|
| Sync.MergeProperties | sync.go:140-153 | merging into a stored feed: a non-empty incoming FeedID, FeedType or SiteURL replaces the stored one and an empty one keeps it, field by field; title and URL are never touched; merging twice is merging once |
| Sync.Manifest.Add | sync.go:138-167 | an existing URL keeps the map and returns the stored feed with its info merged; a new URL adds exactly one entry with a fresh fetcher without validators, taking the generated ID only when the incoming FeedID is empty; other feeds keep their object and info; no fetcher's validators change; every feed stays under its own URL |
| Sync.Manifest.constructor | sync.go:52 | a new manifest is empty |
| Sync.AuthorNameDropsOnlyAnonymous | sync.go:250-264 | "Name <Email>" when both are present, the one present otherwise, and dropped exactly when both are empty |
| Sync.AuthorsOfAppend | sync.go:249-264 | the author list of a concatenation is the concatenation of the author lists |
| Sync.AuthorsOfBounds | sync.go:249-264 | at most one author per person, and never an empty one |
| Sync.AuthorsOfKeepsOrder | sync.go:249-264 | when every person has a name or an email, the list is exactly one formatted name per person, in order |
| Sync.CollectAuthors | sync.go:249-264 | the append loop gives the author list of the item's people |
| Sync.CollectEnclosures | sync.go:266-269 | the enclosure URLs, one per enclosure, in order |
| Sync.ItemEvent | sync.go:233-269 | the FeedItem built in the loop is the item's reference FeedItem: authors, image URL only when the item has an image, enclosures |
| Sync.ItemEvents | sync.go:232-276 | one FeedItem event per item, in item order |
| Sync.SyncEvents | sync.go:201-276 | len(items)+1 events: first an active FeedSync counting the items, then one FeedItem per item carrying the feed's ID, in order |
| Sync.SyncFailed | sync.go:176-198 | a `*HTTPError` becomes one inactive FeedSync message (or the encoder's error); any other error is returned with no messages |
| Sync.MarshalItems | sync.go:231-276 | the item loop marshals event k under ULID k+1, or returns the first encoder error and no messages |
| Sync.PublishSync | sync.go:201-278 | the messages are the SyncEvents marshalled in order, or the first encoder error with no messages |
| Sync.Feed.constructor | sync.go:161-164 | a feed holds the given subscription and fetcher |
| Sync.Feed.Sync | sync.go:170-279 | the fetcher moves to the state the fetch leaves; a feed gives its SyncEvents marshalled in order; any fetch error is returned as it is with no messages |
| Sync.Manifest.SyncAt | sync.go:80-81 | syncing the feed stored under a URL changes only that feed's fetcher: every feed keeps its info, every other fetcher keeps its validators, and the messages are that feed's synchronisation |
| Sync.FeedSync.constructor | sync.go:50-55 | a new FeedSync has the configuration and an empty manifest |
| Sync.FeedSync.Handle | sync.go:65-82 | an undecodable message returns its error and an empty FeedURL returns nothing, both leaving the manifest, its feeds and their fetchers untouched; otherwise the URL joins the manifest keys, the stored info is merged (existing feed) or the subscription with the generated ID when it has none (new feed), every other feed keeps its info and validators, and the messages are that feed's synchronisation from its earlier validators |
| Sync.FeedSync.Subscribe | sync.go:77-81 | the URL joins the manifest keys; the stored info is the merged info of an existing feed, or the subscription with the generated ID when it has none; every other feed keeps its info and validators; the messages are those of synchronising the stored feed from the validators its fetcher held before |
| Sync.FeedSync.Start | sync.go:84-87 | fails with "interval must be 1s or greater" exactly when the interval is under a second |
| Sync.NewFeedSync | sync.go:45-56 | fails with "feed sync is not enabled" exactly when disabled; otherwise a FeedSync with an empty manifest |
| FeedFetch.RequestFor | fetch/feed.go:83-118 | a GET to the URL; If-None-Match present exactly when the etag is non-empty and equal to it, If-Modified-Since likewise; User-Agent, Accept, Accept-Encoding, Cache-Control, Referer and A-IM always set |
| FeedFetch.FetchStep | fetch/feed.go:33-73 | exactly one of feed and error; an error leaves the validators unchanged; an HTTPError has a non-2xx code and is a value, never a pointer |
| FeedFetch.FetchStepResponses | fetch/feed.go:52-68 | a non-2xx status (304 included) is `HTTPError{Code, Status}` with the state unchanged; a 2xx that parses overwrites both validators with the response headers, even empty ones; a parse failure changes nothing |
| FeedFetch.NotModifiedAfterETag | fetch/feed_test.go:38-66 | after a fetch that stored an ETag, a server answering 304 to that If-None-Match makes the next fetch an HTTPError 304 with no feed |
| FeedFetch.NotModifiedAfterLastModified | fetch/feed_test.go:68-98 | the same through Last-Modified and If-Modified-Since |
| FeedFetch.FeedFetcher.constructor | fetch/feed.go:23-28 | a new fetcher has the URL and empty etag and modified |
| FeedFetch.FeedFetcher.ETag | fetch/feed.go:75-77 | returns the stored etag |
| FeedFetch.FeedFetcher.Modified | fetch/feed.go:79-81 | returns the stored modification date |
| FeedFetch.FeedFetcher.NewRequest | fetch/feed.go:83-118 | a rejected URL gives the error; otherwise the header-by-header request equals RequestFor of the current validators |
| FeedFetch.FeedFetcher.Fetch | fetch/feed.go:33-73 | the returned feed, error and new validators are exactly FetchStep from the old validators |
| HttpFetch.RequestFor | fetch/fetch.go:134-169 | User-Agent "Baleen/1.0", the fixed Accept, Cache-Control "max-age=3600", A-IM "feed", no Accept-Encoding; conditional headers exactly when the validators are non-empty |
| HttpFetch.FetchStep | fetch/fetch.go:88-132 | without a feed there is an error and the state is unchanged; an HTTPError has a non-2xx code and is a value |
| HttpFetch.CloseErrorSupersedes | fetch/fetch.go:99-131 | once a response arrives, a failing Body.Close is the error returned whatever the status and parse gave; a parsed 2xx then returns feed and error together and still updates the validators |
| HttpFetch.FetchStepResponses | fetch/fetch.go:112-131 | when closing succeeds: a non-2xx status is exactly an HTTPError value with code and status, no feed, state unchanged; a parsed 2xx is the feed with no error and both validators overwritten from the ETag and Last-Modified headers; a parse failure is that error with the state unchanged |
| HttpFetch.WithoutCloseErrorExactlyOne | fetch/fetch.go:112-131 | without a close error, exactly one of feed and error |
| HttpFetch.NotModifiedAfterETag | fetch/fetch.go:112-156 | a stored ETag is sent back, and a 304 to it is reported as an HTTPError 304 with no feed |
| HttpFetch.HttpFetcher.constructor | fetch/fetch.go:60-65 | a new fetcher has the URL and no validators |
| HttpFetch.HttpFetcher.NewRequest | fetch/fetch.go:134-169 | the header-by-header request equals RequestFor of the current validators |
| HttpFetch.HttpFetcher.Fetch | fetch/fetch.go:88-132 | the result, with the deferred close overriding the error, and the new validators are exactly FetchStep |
| Errors.HTTPError.Error | fetch/error.go:43-45 | the message starts with "http error " |
| Errors.ErrorRoundTrip | fetch/error.go:43-45 | "http error <Code>: <Status>" parses back to the same code and status |
| Errors.NotModifiedExcludesNotFound | fetch/error.go:48-55 | NotModified iff code 304, NotFound iff code 404, never both |
| Errors.Error.AsHTTPPointer | sync.go:177 | the `*fetch.HTTPError` type assertion succeeds exactly for a pointer |
| Errors.ValueIsNotPointer | fetch/feed.go:52-57 | an HTTPError returned by value never passes the pointer assertion |
| Config.FirstMissing | config/config.go:188-222 | reference rule: no error exactly when every required field is non-empty |
| Config.ValidateKafka | config/config.go:188-208 | nil exactly when disabled or all of URL, Balancer, TopicDocuments, TopicFeeds are set |
| Config.KafkaReportsFirstMissing | config/config.go:188-207 | an enabled section reports the first empty field in the order URL, Balancer, TopicDocuments, TopicFeeds |
| Config.ValidateAWS | config/config.go:211-223 | nil exactly when disabled or both Region and Bucket are set |
| Config.AWSReportsFirstMissing | config/config.go:211-222 | an empty Region is reported before an empty Bucket |
| Config.ValidatePublisher | config/config.go:152-162 | "at least one publisher must be enabled" iff neither backend is enabled; with Kafka enabled, Kafka's result; Ensign alone passes |
| Config.ValidateSubscriber | config/config.go:164-174 | the same for subscribers |
| Config.Validate | config/config.go:133-143 | a publisher error is reported before any subscriber error |
| Config.IsZeroAfterMark | config/config.go:119-130 | `IsZero` holds after `Mark` exactly when it held before and the config does not validate |
| Config.Mark | config/config.go:119-130 | the validation error is returned; on success a copy marked processed (so not IsZero) and otherwise equal; on failure the config unchanged |
| Config.MarkIdempotent | config/config.go:124-130 | marking a marked config changes nothing |
| Config.PostProcess | config/config.go:176-185 | the result is `WithCredentials`: empty ClientID and ClientSecret filled from the environment, non-empty ones and all other fields kept |
| Config.New | config/config.go:89-111 | a load error is returned; otherwise it fails exactly when validation fails, with that error; a success is marked processed and validates; it equals the loaded config except for processed and, in each enabled Ensign section, the credentials `WithCredentials` reads from the environment |
| Events.Subscription.Type | events/events.go:111-116 | ("Subscription", 1) |
| Events.FeedSync.Type | events/events.go:118-123 | ("FeedSync", 1) |
| Events.FeedItem.Type | events/events.go:125-130 | ("FeedItem", 1) |
| Events.Document.Type | events/events.go:132-137 | ("Document", 1) |
| Events.TypeNamesIdentifyKinds | events/events.go:17-30 | every version is 1 and two events share a type name exactly when they are of the same kind |
| Messages.Marshal | events/messages.go:16-34 | an encoder error is returned; otherwise the message has the given UUID, the encoded payload and exactly the MIME, type-name, version and created keys, the version written in decimal digits |
| Messages.Unmarshal | events/messages.go:36-65 | a decoded event carries the type name of the metadata; a name outside the four event types gives "cannot unmarshal message type %q" |
| Messages.UnmarshalSubscription | events/messages.go:67-78 | succeeds exactly when `Unmarshal` yields a Subscription, and returns it; a decode error passes through unchanged |
| Messages.UnmarshalFeedSync | events/messages.go:80-91 | the same for FeedSync |
| Messages.UnmarshalFeedItem | events/messages.go:93-104 | the same for FeedItem |
| Messages.UnmarshalDocument | events/messages.go:106-117 | the same for Document |
| Messages.UnmarshalDispatches | events/messages.go:36-65 | the decoded event has the metadata's type name; an unknown name gives "cannot unmarshal message type %q"; a decode failure is wrapped as "cannot unmarshal <type>: ..." |
| Messages.TypedUnmarshalRejectsOtherKinds | events/messages.go:67-117 | each typed variant fails with "message does not contain a X event" exactly when the decoded kind differs |
| Messages.MarshaledVersionParses | events/messages.go:29 | the version string in a marshalled message parses back to the event type's version |
| Messages.MarshalRoundTrip | events/messages.go:16-117 | with a round-tripping codec, unmarshalling a marshalled event gives it back, also through the typed variant of its kind |
| Opml.FilterOf | opml/opml.go:88-94 | nil exactly when no types are given, else the set of the given types |
| Opml.URLsOfAppend | opml/opml.go:96-111 | extraction over a concatenation is the concatenation of the extractions |
| Opml.SingleOutline | opml/opml.go:97-111 | one outline gives its XMLURL, else its HTMLURL, else nothing, and nothing when the filter rejects its type |
| Opml.URLsOfBounds | opml/opml.go:96-113 | no more URLs than outlines, none empty |
| Opml.FilterExtremes | opml/opml.go:88-103 | a filter naming every type present changes nothing; one naming none of them removes everything |
| Opml.URLs | opml/opml.go:87-114 | the two loops give the reference extraction under the filter of the given types |
| Opml.Ext | opml/opml.go:58 | `filepath.Ext`: a suffix of the last path element that starts with its last '.' and holds no other '.', or "" when that element has none |
| Opml.ExtMeaning | opml/opml.go:58 | the right-to-left scan finds that suffix |
| Opml.Load | opml/opml.go:50-78 | an open error is returned; an extension other than .opml, .xml and .json gives "unknown extension %q" |
| Opml.LoadOutcomes | opml/opml.go:58-77 | a successful load used the decoder its extension selects; JSON needs the "opml" key; only a JSON null gives a nil outline |
| Middleware.NewTypeFilter | middleware.go:15-19 | the filter accepts exactly the given type names, duplicates making no difference |
| Middleware.Apply | middleware.go:21-37 | an unknown type is Nacked with (nil, nil); a wrong MIME gives ErrUnhandledMIME; otherwise exactly the handler's result |
| Middleware.HandlerOnlyForMatches | middleware.go:23-34 | the handler is consulted only when type and MIME both match |
| Middleware.TypeCheckFirst | middleware.go:23-34 | an unknown type gives no error even with a wrong MIME; with no types every message is Nacked |
| PubSub.OptionsOf | pubsub.go:35-42 | the Ensign options copy endpoint, client ID, secret and insecure unchanged |
| PubSub.CreatePublisher | pubsub.go:21-31 | Ensign when enabled, else Kafka's "not implemented yet", else "no publisher enabled" |
| PubSub.CreateSubscriber | pubsub.go:50-60 | the same priority with "no subscriber enabled" |
| PubSub.EnsignTakesPriority | pubsub.go:21-31 | with Ensign enabled the Kafka section has no influence |
| PubSub.ValidConfigurationSelection | pubsub.go:26-30 | a configuration that validates never meets "no publisher/subscriber enabled", yet a valid Kafka-only one is refused as not implemented |
| Kafka.BalancerOf | publish/kafka.go:25-38 | accepts exactly RoundRobin, LeastBytes, Hash, Murmur2 and CRC32 |
| Kafka.BalancerNamesRoundTrip | publish/kafka.go:25-38 | each accepted name selects the balancer of that name |
| Kafka.New | publish/kafka.go:21-45 | an unknown balancer gives "unknown balancer specified: <name>"; otherwise a publisher with that balancer and an empty buffer |
| Kafka.KafkaDocumentOf | publish/kafka.go:63-72 | metadata copied; content is unpadded base64 that decodes back to the document's bytes; Encoding and Link left empty |
| Kafka.KafkaPublisher.constructor | publish/kafka.go:40-44 | a new publisher has an empty buffer |
| Kafka.KafkaPublisher.WriteDocument | publish/kafka.go:61-85 | exactly one message on the documents topic appended after the earlier ones, or the JSON error with the buffer unchanged |
| Kafka.KafkaPublisher.WriteFeed | publish/kafka.go:88-100 | the same on the feeds topic |
| Kafka.KafkaPublisher.PublishMessages | publish/kafka.go:103-105 | the whole buffer, in order, goes to the writer and is not cleared |
| Base64.Encode | publish/kafka.go:71 | the encoding of n bytes has (4n+2)/3 characters |
| Base64.EncodeInAlphabet | publish/kafka.go:71 | every character is in the standard alphabet |
| Base64.DecodeEncode | publish/kafka.go:71 | decoding the encoding gives the bytes back |
| Base64.EncodeInjective | publish/kafka.go:71 | different contents never share an encoding |
| Posts.AddPostFetch | posts.go:17-20 | fails with "post fetch is not enabled" exactly when disabled |
| Posts.DocumentFor | posts.go:54-74 | none exactly for a fetch error that is not a `*HTTPError`; title, description, link and feed ID from the item; active with the page on success; inactive with the code and status for a `*HTTPError`; ETag, Last-Modified, language, date parts and encoding stay empty |
| Posts.PostFetch | posts.go:40-82 | an undecodable message returns its error; an empty link gives nothing; otherwise no message and the fetch error, or exactly one marshalled Document, or the encoder's error |
| Version.VersionShape | version.go:21-36 | starts with "major.minor"; short is a prefix of long and equal to it unless the level is alpha or beta, which add "a<serial>" or "b<serial>"; the value of a positive patch never shows |
| Version.ShortVersionParses | version.go:22-25 | split at '.', the short version is major and minor, then minor again when the patch is positive |
| Version.VersionOf | version.go:21-36 | the string starts with "major.minor", and is exactly that without a positive patch when the form is short or the level is neither alpha nor beta |
| Version.Version | version.go:12-36 | with the package's constants both forms are "0.0" |
| Menu.FirstWithKey | web/baleen-admin-ui/src/helpers/menu.ts:24-32 | reference search: a found node carries the key and is in the sequence; none exactly when no node carries it |
| Menu.FirstWithKeyIsFirst | web/baleen-admin-ui/src/helpers/menu.ts:24-30 | the node found has no earlier node with the key |
| Menu.FindIsFirstInPreorder | web/baleen-admin-ui/src/helpers/menu.ts:24-30 | the recursive search returns the first node with the key in pre-order (node, children, next sibling) |
| Menu.FindBelowIsFirstInPreorder | web/baleen-admin-ui/src/helpers/menu.ts:28-29 | the same among one node's descendants |
| Menu.FindMenuItemMeaning | web/baleen-admin-ui/src/helpers/menu.ts:19-33 | null without items or with a falsy key; otherwise the first node with the key in pre-order, null exactly when none has it |
| Menu.FindMenuItem | web/baleen-admin-ui/src/helpers/menu.ts:19-33 | the index loop with early return and recursion into children computes that search |
| Menu.FindAllParent | web/baleen-admin-ui/src/helpers/menu.ts:7-17 | [] exactly when the parent is missing; otherwise it starts with the parent's key |
| Menu.FindAllParentIsAncestors | web/baleen-admin-ui/src/helpers/menu.ts:7-17 | element k-1 is the key of the k-th ancestor, and the chain has no further ancestor |
| Menu.FindAllParentIgnoresDepth | web/baleen-admin-ui/src/helpers/menu.ts:13 | the termination bound does not change the result |
| Menu.MenuIsFlat | web/baleen-admin-ui/src/constants/menu.ts:16-39 | every entry of MENU_ITEMS is found by its key and has no ancestors |
| Menu.GetMenuItems | web/baleen-admin-ui/src/helpers/menu.ts:3-5 | four top-level entries with distinct keys, no parent and no children, only the title lacking a link (MENU_ITEMS of web/baleen-admin-ui/src/constants/menu.ts:16-39) |
| Vocabulary.Vocabularies | web/baleen-admin-ui/src/redux/vocabulary/reducers.ts:12-40 | an omitted state is INITIAL_STATE; a request sets loading and keeps data; success and error clear loading and store payload.data or payload.error; other actions return the state itself; other fields are always copied |
| Vocabulary.GetAllVocabularies | web/baleen-admin-ui/src/redux/vocabulary/actions.ts:3-6 | type GET_VOCABULARY with an empty payload |
| Vocabulary.GetAllVocabulariesResponseSuccess | web/baleen-admin-ui/src/redux/vocabulary/actions.ts:8-11 | type RESPONSE_SUCCESS with payload {data} |
| Vocabulary.GetAllVocabulariesResponseError | web/baleen-admin-ui/src/redux/vocabulary/actions.ts:13-16 | type RESPONSE_SUCCESS (sic) with payload {error} |
| Vocabulary.CreatorsThroughReducer | web/baleen-admin-ui/src/redux/vocabulary/actions.ts:3-16 | reducing the creators' actions: request sets loading, success stores the data, the error action stores undefined |
| Vocabulary.RequestThenResponse | web/baleen-admin-ui/src/redux/vocabulary/reducers.ts:19-29 | a request and then its response leave only the new data and loading cleared |
| Vocabulary.LoadingFollowsLastRequest | web/baleen-admin-ui/src/redux/vocabulary/reducers.ts:17-40 | after reducing any sequence of actions, the fields other than data and isLoading are unchanged, and isLoading is true exactly when the last action of a recognised type is GET_VOCABULARY (or, with none, when it was true at the start) |
| Interceptor.AxiosErrorInterceptor | web/baleen-admin-ui/src/helpers/api/error.interceptor.ts:3-24 | always a rejection: 401, 403 and 500 give their fixed texts, 404 the error object, otherwise response.data.message, else error.message if non-empty, else the error |
| Interceptor.FixedStatusMessages | web/baleen-admin-ui/src/helpers/api/error.interceptor.ts:7-18 | for 401, 403 and 500 the message depends on the status alone and is never the 404 fallback text |
| Interceptor.ReasonSources | web/baleen-admin-ui/src/helpers/api/error.interceptor.ts:6-23 | a text reason is a fixed text or the error's own message; the error object is returned exactly for a 404 or when nothing better exists |
| Api.Entries | web/baleen-admin-ui/src/helpers/api/index.ts:24-28 | one "key=value" entry per parameter, in key order |
| Api.GetURL | web/baleen-admin-ui/src/helpers/api/index.ts:21-34 | without params the URL unchanged; with params it begins with url + "?"; empty params give url + "?" |
| Api.QueryStringParses | web/baleen-admin-ui/src/helpers/api/index.ts:23-29 | when keys hold no '=' or '&' and values no '&', splitting after '?' at '&' and each entry at its first '=' gives the parameters back in order |

## Left out

- `FeedSync.Start`'s goroutine, ticker, stop channel and publish loop (sync.go:89-122), `FeedSync.Stop`, and `Baleen.AddFeedSync`/`AddPostFetch` router wiring: concurrency and framework glue. Only the guards are modelled.
- Logging, metrics and the 45-second contexts: no effect on results.
- Network I/O: the HTTP client and its timeouts, and the gofeed and goquery parsers. A request and its response come from an abstract `Transport`, and a response carries what the parser made of its body. fetch/html.go is not part of this model; the post fetcher is a function parameter.
- The fetch package's header names and the values `userAgent`, `acceptRSS`, `acceptEncode`, `cacheControl`, `referer` and `aimType` are declared in a file that is not part of this model. The names are constants here, and the values a parameter record.
- `http.Header` canonicalisation of header names and multiple values per name: one value per literal name is kept.
- The MessagePack code generated for the events, `json.Marshal`, the Kafka writer, the Ensign client constructors, `envconfig.Process` and `os.Getenv`: foreign code, modelled as parameters.
- `time.Now()`, `watermill.NewULID()` and `watermill.NewShortUUID()`: parameters of the operations that use them. There is one clock reading per call: every message of one sync or one post fetch carries the same `created` time, where events/messages.go:31 reads `time.Now()` again on each `Marshal`.
- `Text.Quote`: Go's `%q` escaping is not modelled; the text is only wrapped in double quotes.
- Opml.Ext: only '/' separates path elements (the Unix `filepath.Ext`).
- The XML and JSON decoding in `opml.Load`: their outcomes are inputs.
- Config: `GetLogLevel`, `RouterConfig` and the struct-tag defaults are not modelled; the log level is an integer.
- Sync.Manifest.Add: Go stores the caller's `*Subscription` pointer and writes the generated FeedID into it; the model stores a copy, so that aliasing is not captured.
- Menu.FindAllParent: the ghost `depth` argument and the `ChainEnds` precondition bound the parent chain, since the source recurses for ever on a cyclic one; the result does not depend on the bound (`Menu.FindAllParentIgnoresDepth`).
- The `badge` and `target` menu fields, and all UI rendering: not read by the helpers.
- `Object.keys` ordering of integer-like keys: the parameters are given as an ordered list of pairs.
- The action-type strings of `redux/vocabulary/constants` (not part of this model): tags of a datatype, so they are assumed distinct.
- `ErrUnhandledType` (middleware.go:11): declared but never returned.
- The fixture counts of opml/opml_test.go: the fixture file is not part of this model.
