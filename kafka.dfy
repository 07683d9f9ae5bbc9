/** publish/kafka.go: the Kafka publisher, which buffers JSON-encoded
    documents and feeds as Kafka messages and hands the whole buffer to the
    writer. */
module Kafka {
  import opened Common
  import Config
  import Base64

  /** `store.Document` */
  datatype Document = Document(
    feedID: string, languageCode: string, year: int, month: string, day: int,
    title: string, description: string, content: seq<Base64.Byte>, encoding: string, link: string)

  /** `store.Feed` */
  datatype Feed = Feed(url: string, active: bool, error: string)

  /** `KafkaDocument`: the document with its content as a base64 string. */
  datatype KafkaDocument = KafkaDocument(
    feedID: string, languageCode: string, year: int, month: string, day: int,
    title: string, description: string, content: string, encoding: string, link: string)

  /** `kafka.Message` as the publisher fills it: a topic and a JSON value. */
  datatype Message = Message(topic: string, value: seq<Base64.Byte>)

  /** `json.Marshal` on the two record types, which the model does not
      spell out. */
  datatype JSON = JSON(
    document: KafkaDocument -> Result<seq<Base64.Byte>, string>,
    feed: Feed -> Result<seq<Base64.Byte>, string>)

  /** The five balancers of kafka-go the configuration may name. */
  datatype Balancer = RoundRobin | LeastBytes | Hash | Murmur2 | CRC32

  function BalancerName(b: Balancer): string
  {
    match b
    case RoundRobin => "RoundRobin"
    case LeastBytes => "LeastBytes"
    case Hash => "Hash"
    case Murmur2 => "Murmur2"
    case CRC32 => "CRC32"
  }

  /** The balancer switch of `New`. */
  function BalancerOf(name: string): (r: Option<Balancer>)
    ensures r.Some? <==> name in {"RoundRobin", "LeastBytes", "Hash", "Murmur2", "CRC32"}
  {
    if name == "RoundRobin" then Some(RoundRobin)
    else if name == "LeastBytes" then Some(LeastBytes)
    else if name == "Hash" then Some(Hash)
    else if name == "Murmur2" then Some(Murmur2)
    else if name == "CRC32" then Some(CRC32)
    else None
  }

  /** The switch recognises exactly the balancers' own names, each as itself. */
  lemma BalancerNamesRoundTrip(b: Balancer, name: string)
    ensures BalancerOf(BalancerName(b)) == Some(b)
    ensures BalancerOf(name).Some? ==> BalancerName(BalancerOf(name).value) == name
  {
  }

  /** The KafkaDocument written for a store document: the metadata copied,
      the content base64-encoded (it decodes back to the original bytes),
      and Encoding and Link left empty. */
  function KafkaDocumentOf(doc: Document): (k: KafkaDocument)
    ensures k.feedID == doc.feedID && k.languageCode == doc.languageCode
    ensures k.year == doc.year && k.month == doc.month && k.day == doc.day
    ensures k.title == doc.title && k.description == doc.description
    ensures Base64.Decode(k.content) == Some(doc.content)
    ensures k.encoding == "" && k.link == ""
  {
    Base64.DecodeEncode(doc.content);
    KafkaDocument(doc.feedID, doc.languageCode, doc.year, doc.month, doc.day,
      doc.title, doc.description, Base64.Encode(doc.content), "", "")
  }

  class KafkaPublisher {
    const conf: Config.KafkaConfig
    const balancer: Balancer
    var messages: seq<Message>

    constructor (conf: Config.KafkaConfig, balancer: Balancer)
      ensures this.conf == conf && this.balancer == balancer && messages == []
    {
      this.conf := conf;
      this.balancer := balancer;
      messages := [];
    }

    /** `WriteDocument`: append one message to the documents topic, or
        return the encoding error and leave the buffer alone. */
    method WriteDocument(doc: Document, json: JSON) returns (err: Option<string>)
      modifies this
      ensures var data := json.document(KafkaDocumentOf(doc));
        && (data.Err? ==> err == Some(data.error) && messages == old(messages))
        && (data.Ok? ==> err.None? && messages == old(messages) + [Message(conf.topicDocuments, data.value)])
    {
      var kafkaDoc := KafkaDocument(doc.feedID, doc.languageCode, doc.year, doc.month, doc.day,
        doc.title, doc.description, Base64.Encode(doc.content), "", "");
      var data := json.document(kafkaDoc);
      if data.Err? {
        return Some(data.error);
      }
      messages := messages + [Message(conf.topicDocuments, data.value)];
      err := None;
    }

    /** `WriteFeed`: append one message to the feeds topic, or return the
        encoding error and leave the buffer alone. */
    method WriteFeed(feed: Feed, json: JSON) returns (err: Option<string>)
      modifies this
      ensures var data := json.feed(feed);
        && (data.Err? ==> err == Some(data.error) && messages == old(messages))
        && (data.Ok? ==> err.None? && messages == old(messages) + [Message(conf.topicFeeds, data.value)])
    {
      var data := json.feed(feed);
      if data.Err? {
        return Some(data.error);
      }
      messages := messages + [Message(conf.topicFeeds, data.value)];
      err := None;
    }

    /** `PublishMessages`: the whole buffer, in order, goes to the writer
        (`write`); the buffer is not cleared. */
    method PublishMessages(write: seq<Message> -> Option<string>) returns (err: Option<string>)
      ensures err == write(messages)
    {
      err := write(messages);
    }
  }

  /** `New`: refuse a balancer name outside the five known ones. */
  method New(conf: Config.KafkaConfig) returns (r: Result<KafkaPublisher, string>)
    ensures BalancerOf(conf.balancer).None? ==> r == Err("unknown balancer specified: " + conf.balancer)
    ensures BalancerOf(conf.balancer).Some? ==>
              r.Ok? && fresh(r.value) && r.value.conf == conf &&
              r.value.balancer == BalancerOf(conf.balancer).value && r.value.messages == []
  {
    var balancer := BalancerOf(conf.balancer);
    if balancer.None? {
      return Err("unknown balancer specified: " + conf.balancer);
    }
    var p := new KafkaPublisher(conf, balancer.value);
    return Ok(p);
  }
}
