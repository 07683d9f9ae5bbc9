/** pubsub.go: the topic names, and the choice of publisher and subscriber
    backend from the configuration. */
module PubSub {
  import opened Common
  import Config

  const TopicSubscriptions := "io.rotational.baleen/subscriptions"
  const TopicFeeds := "io.rotational.baleen/feeds"
  const TopicDocuments := "io.rotational.baleen/documents"

  const ErrNotImplemented := "not implemented yet"
  const ErrNoPublisher := "invalid configuration: no publisher enabled"
  const ErrNoSubscriber := "invalid configuration: no subscriber enabled"

  /** The `esdk.Options` handed to the Ensign client. */
  datatype EnsignOptions = EnsignOptions(endpoint: string, clientID: string, clientSecret: string, insecure: bool)

  /** The Ensign options copy the four connection fields unchanged. */
  function OptionsOf(c: Config.EnsignConfig): (o: EnsignOptions)
    ensures o.endpoint == c.endpoint && o.clientID == c.clientID
    ensures o.clientSecret == c.clientSecret && o.insecure == c.insecure
  {
    EnsignOptions(c.endpoint, c.clientID, c.clientSecret, c.insecure)
  }

  /** `CreateEnsignPublisher`; `connect` is `ensign.NewPublisher`. */
  function CreateEnsignPublisher<P>(c: Config.EnsignConfig, connect: EnsignOptions -> Result<P, string>): Result<P, string>
  {
    connect(OptionsOf(c))
  }

  function CreateKafkaPublisher<P>(c: Config.KafkaConfig): Result<P, string>
  {
    Err(ErrNotImplemented)
  }

  /** `CreatePublisher`: Ensign first, then Kafka, else no publisher. */
  function CreatePublisher<P>(conf: Config.PublisherConfig, connect: EnsignOptions -> Result<P, string>): (r: Result<P, string>)
    ensures conf.ensign.enabled ==> r == connect(OptionsOf(conf.ensign))
    ensures !conf.ensign.enabled && conf.kafka.enabled ==> r == Err(ErrNotImplemented)
    ensures !conf.ensign.enabled && !conf.kafka.enabled ==> r == Err(ErrNoPublisher)
  {
    if conf.ensign.enabled then CreateEnsignPublisher(conf.ensign, connect)
    else if conf.kafka.enabled then CreateKafkaPublisher(conf.kafka)
    else Err(ErrNoPublisher)
  }

  /** `CreateEnsignSubscriber`; `connect` is `ensign.NewSubscriber`. */
  function CreateEnsignSubscriber<S>(c: Config.EnsignConfig, connect: EnsignOptions -> Result<S, string>): Result<S, string>
  {
    connect(OptionsOf(c))
  }

  function CreateKafkaSubscriber<S>(c: Config.KafkaConfig): Result<S, string>
  {
    Err(ErrNotImplemented)
  }

  /** `CreateSubscriber`: the same priority as `CreatePublisher`. */
  function CreateSubscriber<S>(conf: Config.SubscriberConfig, connect: EnsignOptions -> Result<S, string>): (r: Result<S, string>)
    ensures conf.ensign.enabled ==> r == connect(OptionsOf(conf.ensign))
    ensures !conf.ensign.enabled && conf.kafka.enabled ==> r == Err(ErrNotImplemented)
    ensures !conf.ensign.enabled && !conf.kafka.enabled ==> r == Err(ErrNoSubscriber)
  {
    if conf.ensign.enabled then CreateEnsignSubscriber(conf.ensign, connect)
    else if conf.kafka.enabled then CreateKafkaSubscriber(conf.kafka)
    else Err(ErrNoSubscriber)
  }

  /** With Ensign enabled, the Kafka section has no influence on the
      publisher or subscriber chosen. */
  lemma EnsignTakesPriority<P>(p: Config.PublisherConfig, s: Config.SubscriberConfig, k: Config.KafkaConfig,
                               connect: EnsignOptions -> Result<P, string>)
    requires p.ensign.enabled && s.ensign.enabled
    ensures CreatePublisher(p.(kafka := k), connect) == CreatePublisher(p, connect)
    ensures CreateSubscriber(s.(kafka := k), connect) == CreateSubscriber(s, connect)
  {
  }

  /** Against the configuration validators: a configuration that validates
      never meets the "no publisher/subscriber" error, yet a valid Kafka-only
      configuration is still refused, because Kafka is not implemented. */
  lemma ValidConfigurationSelection<P>(c: Config.Config, connect: EnsignOptions -> Result<P, string>)
    requires Config.Validate(c).None?
    ensures CreatePublisher(c.publisher, connect) != Err(ErrNoPublisher) || c.publisher.ensign.enabled
    ensures CreateSubscriber(c.subscriber, connect) != Err(ErrNoSubscriber) || c.subscriber.ensign.enabled
    ensures !c.publisher.ensign.enabled ==> CreatePublisher(c.publisher, connect) == Err(ErrNotImplemented)
    ensures !c.subscriber.ensign.enabled ==> CreateSubscriber(c.subscriber, connect) == Err(ErrNotImplemented)
  {
  }
}
