/** events/messages.go: wrapping an event into a watermill message with Ensign
    metadata, and dispatching a received message back to its event kind.

    The msgpack code generated for the four event structs is not part of this
    model; it is the abstract Codec below, of which the round trip is assumed
    only where a lemma says so (RoundTrips). */
module Messages {
  import opened Common
  import opened Errors
  import opened Events
  import Text

  type Bytes = seq<bv8>

  /** The Ensign metadata keys (`ensign.MIMEKey`, `ensign.TypeNameKey`, ...);
      their spelling lives in the watermill-ensign library. */
  datatype MetaKey = MIMEKey | TypeNameKey | TypeVersionKey | CreatedKey | OtherKey(name: string)

  /** `mime.ApplicationMsgPack.MimeType()` */
  const MsgPackMIME := "application/msgpack"

  /** A watermill `message.Message`: UUID, payload and metadata. */
  datatype Message = Message(uuid: string, payload: Bytes, metadata: map<MetaKey, string>)

  /** `msg.Metadata.Get(key)`: the empty string for a missing key. */
  function Get(metadata: map<MetaKey, string>, key: MetaKey): string
  {
    if key in metadata then metadata[key] else ""
  }

  /** The generated `MarshalMsg` / `UnmarshalMsg` methods. */
  datatype Codec = Codec(
    encode: Event -> Result<Bytes, string>,
    decodeSubscription: Bytes -> Result<Subscription, string>,
    decodeFeedSync: Bytes -> Result<FeedSync, string>,
    decodeFeedItem: Bytes -> Result<FeedItem, string>,
    decodeDocument: Bytes -> Result<Document, string>)

  /** Decoding what was encoded gives the event back, for each kind. */
  ghost predicate RoundTrips(c: Codec)
  {
    && (forall s: Subscription {:trigger c.encode(SubscriptionEvent(s))} ::
          c.encode(SubscriptionEvent(s)).Ok? ==> c.decodeSubscription(c.encode(SubscriptionEvent(s)).value) == Ok(s))
    && (forall f: FeedSync {:trigger c.encode(FeedSyncEvent(f))} ::
          c.encode(FeedSyncEvent(f)).Ok? ==> c.decodeFeedSync(c.encode(FeedSyncEvent(f)).value) == Ok(f))
    && (forall i: FeedItem {:trigger c.encode(FeedItemEvent(i))} ::
          c.encode(FeedItemEvent(i)).Ok? ==> c.decodeFeedItem(c.encode(FeedItemEvent(i)).value) == Ok(i))
    && (forall d: Document {:trigger c.encode(DocumentEvent(d))} ::
          c.encode(DocumentEvent(d)).Ok? ==> c.decodeDocument(c.encode(DocumentEvent(d)).value) == Ok(d))
  }

  /** `msg` is what Marshal builds for `event`: the given UUID, the encoded
      payload, and exactly the four metadata keys. */
  ghost predicate MarshaledFrom(msg: Message, c: Codec, event: Event, uuid: string, created: string)
  {
    && c.encode(event).Ok?
    && msg.uuid == uuid
    && msg.payload == c.encode(event).value
    && msg.metadata.Keys == {MIMEKey, TypeNameKey, TypeVersionKey, CreatedKey}
    && msg.metadata[MIMEKey] == MsgPackMIME
    && msg.metadata[TypeNameKey] == event.Type().name
    && msg.metadata[TypeVersionKey] == Text.NatToString(event.Type().version)
    && msg.metadata[CreatedKey] == created
  }

  /** `Marshal(event, uuid)`; `created` is `time.Now()` already formatted as
      RFC 3339 with nanoseconds. */
  method Marshal(c: Codec, event: Event, uuid: string, created: string) returns (r: Result<Message, Error>)
    ensures c.encode(event).Err? ==> r == Err(Plain(c.encode(event).error))
    ensures c.encode(event).Ok? ==> r.Ok? && MarshaledFrom(r.value, c, event, uuid, created)
  {
    var payload := c.encode(event);
    if payload.Err? {
      return Err(Plain(payload.error));
    }
    var etype := event.Type();
    var metadata: map<MetaKey, string> := map[];
    metadata := metadata[MIMEKey := MsgPackMIME];
    metadata := metadata[TypeNameKey := etype.name];
    metadata := metadata[TypeVersionKey := Text.NatToString(etype.version)];
    metadata := metadata[CreatedKey := created];
    r := Ok(Message(uuid, payload.value, metadata));
  }

  function DecodeFailure(t: string, e: string): Error
  {
    Plain("cannot unmarshal " + t + ": " + e)
  }

  /** `Unmarshal(msg)`: decode the payload as the kind the metadata names. */
  function Unmarshal(c: Codec, msg: Message): (r: Result<Event, Error>)
    ensures r.Ok? ==> r.value.Type().name == Get(msg.metadata, TypeNameKey)
    ensures !KnownTypeName(Get(msg.metadata, TypeNameKey)) ==>
              r == Err(Plain("cannot unmarshal message type " + Text.Quote(Get(msg.metadata, TypeNameKey))))
  {
    var t := Get(msg.metadata, TypeNameKey);
    if t == TypeSubscription then
      match c.decodeSubscription(msg.payload)
      case Err(e) => Err(DecodeFailure(t, e))
      case Ok(s) => Ok(SubscriptionEvent(s))
    else if t == TypeFeedSync then
      match c.decodeFeedSync(msg.payload)
      case Err(e) => Err(DecodeFailure(t, e))
      case Ok(f) => Ok(FeedSyncEvent(f))
    else if t == TypeFeedItem then
      match c.decodeFeedItem(msg.payload)
      case Err(e) => Err(DecodeFailure(t, e))
      case Ok(i) => Ok(FeedItemEvent(i))
    else if t == TypeDocument then
      match c.decodeDocument(msg.payload)
      case Err(e) => Err(DecodeFailure(t, e))
      case Ok(d) => Ok(DocumentEvent(d))
    else
      Err(Plain("cannot unmarshal message type " + Text.Quote(t)))
  }

  /** `UnmarshalSubscription(msg)`: the Subscription the message holds; a decode
      error passes through, and an event of another kind is refused. */
  function UnmarshalSubscription(c: Codec, msg: Message): (r: Result<Subscription, Error>)
    ensures r.Ok? <==> Unmarshal(c, msg).Ok? && Unmarshal(c, msg).value.SubscriptionEvent?
    ensures r.Ok? ==> Unmarshal(c, msg) == Ok(SubscriptionEvent(r.value))
    ensures Unmarshal(c, msg).Err? ==> r == Err(Unmarshal(c, msg).error)
  {
    match Unmarshal(c, msg)
    case Err(e) => Err(e)
    case Ok(SubscriptionEvent(s)) => Ok(s)
    case Ok(_) => Err(Plain("message does not contain a Subscription event"))
  }

  /** `UnmarshalFeedSync(msg)`: the FeedSync the message holds; a decode
      error passes through, and an event of another kind is refused. */
  function UnmarshalFeedSync(c: Codec, msg: Message): (r: Result<FeedSync, Error>)
    ensures r.Ok? <==> Unmarshal(c, msg).Ok? && Unmarshal(c, msg).value.FeedSyncEvent?
    ensures r.Ok? ==> Unmarshal(c, msg) == Ok(FeedSyncEvent(r.value))
    ensures Unmarshal(c, msg).Err? ==> r == Err(Unmarshal(c, msg).error)
  {
    match Unmarshal(c, msg)
    case Err(e) => Err(e)
    case Ok(FeedSyncEvent(f)) => Ok(f)
    case Ok(_) => Err(Plain("message does not contain a FeedSync event"))
  }

  /** `UnmarshalFeedItem(msg)`: the FeedItem the message holds; a decode
      error passes through, and an event of another kind is refused. */
  function UnmarshalFeedItem(c: Codec, msg: Message): (r: Result<FeedItem, Error>)
    ensures r.Ok? <==> Unmarshal(c, msg).Ok? && Unmarshal(c, msg).value.FeedItemEvent?
    ensures r.Ok? ==> Unmarshal(c, msg) == Ok(FeedItemEvent(r.value))
    ensures Unmarshal(c, msg).Err? ==> r == Err(Unmarshal(c, msg).error)
  {
    match Unmarshal(c, msg)
    case Err(e) => Err(e)
    case Ok(FeedItemEvent(i)) => Ok(i)
    case Ok(_) => Err(Plain("message does not contain a FeedItem event"))
  }

  /** `UnmarshalDocument(msg)`: the Document the message holds; a decode
      error passes through, and an event of another kind is refused. */
  function UnmarshalDocument(c: Codec, msg: Message): (r: Result<Document, Error>)
    ensures r.Ok? <==> Unmarshal(c, msg).Ok? && Unmarshal(c, msg).value.DocumentEvent?
    ensures r.Ok? ==> Unmarshal(c, msg) == Ok(DocumentEvent(r.value))
    ensures Unmarshal(c, msg).Err? ==> r == Err(Unmarshal(c, msg).error)
  {
    match Unmarshal(c, msg)
    case Err(e) => Err(e)
    case Ok(DocumentEvent(d)) => Ok(d)
    case Ok(_) => Err(Plain("message does not contain a Document event"))
  }

  predicate KnownTypeName(t: string)
  {
    t == TypeSubscription || t == TypeFeedSync || t == TypeFeedItem || t == TypeDocument
  }

  /** Unmarshal yields an event whose type name is the one in the metadata; an
      unknown name gives the "cannot unmarshal message type" error, and a known
      one gives either its event or its wrapped decode error. */
  lemma UnmarshalDispatches(c: Codec, msg: Message)
    ensures var t := Get(msg.metadata, TypeNameKey);
      && (Unmarshal(c, msg).Ok? ==> Unmarshal(c, msg).value.Type().name == t)
      && (!KnownTypeName(t) <==> Unmarshal(c, msg) == Err(Plain("cannot unmarshal message type " + Text.Quote(t))))
      && (t == TypeSubscription && c.decodeSubscription(msg.payload).Err? ==>
            Unmarshal(c, msg) == Err(DecodeFailure(t, c.decodeSubscription(msg.payload).error)))
      && (t == TypeFeedSync && c.decodeFeedSync(msg.payload).Err? ==>
            Unmarshal(c, msg) == Err(DecodeFailure(t, c.decodeFeedSync(msg.payload).error)))
      && (t == TypeFeedItem && c.decodeFeedItem(msg.payload).Err? ==>
            Unmarshal(c, msg) == Err(DecodeFailure(t, c.decodeFeedItem(msg.payload).error)))
      && (t == TypeDocument && c.decodeDocument(msg.payload).Err? ==>
            Unmarshal(c, msg) == Err(DecodeFailure(t, c.decodeDocument(msg.payload).error)))
  {
    var t := Get(msg.metadata, TypeNameKey);
    if KnownTypeName(t) {
      // A decode failure reads "cannot unmarshal <t>: ...", and no known name starts with 'm'.
      assert forall e :: DecodeFailure(t, e).text[17] == t[0] != 'm';
      assert ("cannot unmarshal message type " + Text.Quote(t))[17] == 'm';
    }
  }

  /** `UnmarshalSubscription` rejects a well-decoded message of another kind
      with "message does not contain a Subscription event"; the same holds for
      the three other typed variants. */
  lemma TypedUnmarshalRejectsOtherKinds(c: Codec, msg: Message)
    requires Unmarshal(c, msg).Ok?
    ensures !Unmarshal(c, msg).value.SubscriptionEvent? <==>
      UnmarshalSubscription(c, msg) == Err(Plain("message does not contain a Subscription event"))
    ensures !Unmarshal(c, msg).value.FeedSyncEvent? <==>
      UnmarshalFeedSync(c, msg) == Err(Plain("message does not contain a FeedSync event"))
    ensures !Unmarshal(c, msg).value.FeedItemEvent? <==>
      UnmarshalFeedItem(c, msg) == Err(Plain("message does not contain a FeedItem event"))
    ensures !Unmarshal(c, msg).value.DocumentEvent? <==>
      UnmarshalDocument(c, msg) == Err(Plain("message does not contain a Document event"))
  {
  }

  /** The version in the metadata reads back as the event type's version. */
  lemma MarshaledVersionParses(c: Codec, event: Event, uuid: string, created: string, msg: Message)
    requires MarshaledFrom(msg, c, event, uuid, created)
    ensures Text.ParseInt(msg.metadata[TypeVersionKey]) == Some(event.Type().version)
  {
    Text.IntToStringRoundTrip(event.Type().version);
  }

  /** Round trip: with a codec that round-trips, unmarshalling what Marshal
      built gives back the event, through the typed variant of its kind. */
  lemma MarshalRoundTrip(c: Codec, event: Event, uuid: string, created: string, msg: Message)
    requires RoundTrips(c)
    requires MarshaledFrom(msg, c, event, uuid, created)
    ensures Unmarshal(c, msg) == Ok(event)
    ensures event.SubscriptionEvent? ==> UnmarshalSubscription(c, msg) == Ok(event.subscription)
    ensures event.FeedSyncEvent? ==> UnmarshalFeedSync(c, msg) == Ok(event.feedSync)
    ensures event.FeedItemEvent? ==> UnmarshalFeedItem(c, msg) == Ok(event.feedItem)
    ensures event.DocumentEvent? ==> UnmarshalDocument(c, msg) == Ok(event.document)
  {
    assert Get(msg.metadata, TypeNameKey) == event.Type().name;
    match event
    case SubscriptionEvent(s) =>
    case FeedSyncEvent(f) =>
    case FeedItemEvent(i) =>
    case DocumentEvent(d) =>
  }
}
