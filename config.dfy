/** config/config.go: Baleen's configuration records, their validators, and
    the post-processing that `New` applies after the environment is read. */
module Config {
  import opened Common

  /** A `time.Duration`, in nanoseconds. */
  type Duration = int
  const Second: Duration := 1_000_000_000

  datatype FeedSyncConfig = FeedSyncConfig(enabled: bool, interval: Duration)
  datatype PostFetchConfig = PostFetchConfig(enabled: bool)
  datatype MonitoringConfig = MonitoringConfig(enabled: bool, bindAddr: string, nodeID: string)
  datatype EnsignConfig = EnsignConfig(
    enabled: bool, endpoint: string, clientID: string, clientSecret: string, insecure: bool)
  datatype KafkaConfig = KafkaConfig(
    enabled: bool, url: string, balancer: string, topicDocuments: string, topicFeeds: string)
  datatype AWSConfig = AWSConfig(enabled: bool, region: string, bucket: string)
  datatype PublisherConfig = PublisherConfig(ensign: EnsignConfig, kafka: KafkaConfig)
  datatype SubscriberConfig = SubscriberConfig(ensign: EnsignConfig, kafka: KafkaConfig)

  /** `processed` is the unexported flag that only `New` and `Mark` set. */
  datatype Config = Config(
    logLevel: int, consoleLog: bool, closeTimeout: Duration,
    feedSync: FeedSyncConfig, postFetch: PostFetchConfig, monitoring: MonitoringConfig,
    publisher: PublisherConfig, subscriber: SubscriberConfig, processed: bool)

  const ErrNoPublisher := "invalid configuration: at least one publisher must be enabled"
  const ErrNoSubscriber := "invalid configuration: at least one subscriber must be enabled"
  const ErrKafkaURL := "invalid configuration: kafka url must be specified"
  const ErrKafkaBalancer := "invalid configuration: kafka balancer must be specified"
  const ErrKafkaTopicDocuments := "invalid configuration: kafka topic for documents must be specified"
  const ErrKafkaTopicFeeds := "invalid configuration: kafka topic for feeds must be specified"
  const ErrAWSRegion := "invalid configuration: AWS region must be specified"
  const ErrAWSBucket := "invalid configuration: AWS bucket must be specified"

  /** The first required field that is empty, reported by its message; the
      reference definition the ordered validators are checked against. */
  function FirstMissing(fields: seq<(string, string)>): (r: Option<string>)
    ensures r.None? <==> forall k :: 0 <= k < |fields| ==> fields[k].0 != ""
  {
    if |fields| == 0 then None
    else if fields[0].0 == "" then Some(fields[0].1)
    else
      assert forall k :: 1 <= k < |fields| ==> fields[k] == fields[1..][k - 1];
      FirstMissing(fields[1..])
  }

  /** `KafkaConfig.Validate`: nil when disabled; otherwise the first empty one
      of URL, Balancer, TopicDocuments and TopicFeeds, in that order. */
  function ValidateKafka(c: KafkaConfig): (r: Option<string>)
    ensures r.None? <==> !c.enabled || (c.url != "" && c.balancer != "" && c.topicDocuments != "" && c.topicFeeds != "")
  {
    if c.enabled then
      if c.url == "" then Some(ErrKafkaURL)
      else if c.balancer == "" then Some(ErrKafkaBalancer)
      else if c.topicDocuments == "" then Some(ErrKafkaTopicDocuments)
      else if c.topicFeeds == "" then Some(ErrKafkaTopicFeeds)
      else None
    else None
  }

  /** `AWSConfig.Validate`: nil when disabled; an empty Region is reported
      before an empty Bucket. */
  function ValidateAWS(c: AWSConfig): (r: Option<string>)
    ensures r.None? <==> !c.enabled || (c.region != "" && c.bucket != "")
  {
    if c.enabled then
      if c.region == "" then Some(ErrAWSRegion)
      else if c.bucket == "" then Some(ErrAWSBucket)
      else None
    else None
  }

  /** An enabled Kafka section is checked field by field in the order URL,
      Balancer, TopicDocuments, TopicFeeds, and the first empty one is
      reported. */
  lemma KafkaReportsFirstMissing(k: KafkaConfig)
    ensures k.enabled ==> (ValidateKafka(k) ==
      FirstMissing([(k.url, ErrKafkaURL), (k.balancer, ErrKafkaBalancer),
                    (k.topicDocuments, ErrKafkaTopicDocuments), (k.topicFeeds, ErrKafkaTopicFeeds)]))
  {
    var f4 := [(k.topicFeeds, ErrKafkaTopicFeeds)];
    var f3 := [(k.topicDocuments, ErrKafkaTopicDocuments)] + f4;
    var f2 := [(k.balancer, ErrKafkaBalancer)] + f3;
    var f1 := [(k.url, ErrKafkaURL)] + f2;
    assert f4[1..] == [] && f3[1..] == f4 && f2[1..] == f3 && f1[1..] == f2;
    assert FirstMissing(f4) == if k.topicFeeds == "" then Some(ErrKafkaTopicFeeds) else None;
    assert FirstMissing(f3) == if k.topicDocuments == "" then Some(ErrKafkaTopicDocuments) else FirstMissing(f4);
    assert FirstMissing(f2) == if k.balancer == "" then Some(ErrKafkaBalancer) else FirstMissing(f3);
    assert FirstMissing(f1) == if k.url == "" then Some(ErrKafkaURL) else FirstMissing(f2);
    assert f1 == [(k.url, ErrKafkaURL), (k.balancer, ErrKafkaBalancer),
                  (k.topicDocuments, ErrKafkaTopicDocuments), (k.topicFeeds, ErrKafkaTopicFeeds)];
  }

  /** An enabled AWS section reports an empty Region before an empty Bucket. */
  lemma AWSReportsFirstMissing(a: AWSConfig)
    ensures a.enabled ==> (ValidateAWS(a) == FirstMissing([(a.region, ErrAWSRegion), (a.bucket, ErrAWSBucket)]))
  {
    var g2 := [(a.bucket, ErrAWSBucket)];
    var g1 := [(a.region, ErrAWSRegion)] + g2;
    assert g2[1..] == [] && g1[1..] == g2;
    assert FirstMissing(g2) == if a.bucket == "" then Some(ErrAWSBucket) else None;
    assert FirstMissing(g1) == if a.region == "" then Some(ErrAWSRegion) else FirstMissing(g2);
    assert g1 == [(a.region, ErrAWSRegion), (a.bucket, ErrAWSBucket)];
  }

  /** `PublisherConfig.Validate` */
  function ValidatePublisher(c: PublisherConfig): (r: Option<string>)
    ensures r == Some(ErrNoPublisher) <==> !c.ensign.enabled && !c.kafka.enabled
    ensures c.kafka.enabled ==> r == ValidateKafka(c.kafka)
    ensures c.ensign.enabled && !c.kafka.enabled ==> r.None?
  {
    if !c.ensign.enabled && !c.kafka.enabled then Some(ErrNoPublisher)
    else if c.kafka.enabled then ValidateKafka(c.kafka)
    else None
  }

  /** `SubscriberConfig.Validate` */
  function ValidateSubscriber(c: SubscriberConfig): (r: Option<string>)
    ensures r == Some(ErrNoSubscriber) <==> !c.ensign.enabled && !c.kafka.enabled
    ensures c.kafka.enabled ==> r == ValidateKafka(c.kafka)
    ensures c.ensign.enabled && !c.kafka.enabled ==> r.None?
  {
    if !c.ensign.enabled && !c.kafka.enabled then Some(ErrNoSubscriber)
    else if c.kafka.enabled then ValidateKafka(c.kafka)
    else None
  }

  /** `Config.Validate`: a publisher error is reported before any subscriber error. */
  function Validate(c: Config): (r: Option<string>)
    ensures ValidatePublisher(c.publisher).Some? ==> r == ValidatePublisher(c.publisher)
    ensures ValidatePublisher(c.publisher).None? ==> r == ValidateSubscriber(c.subscriber)
  {
    var p := ValidatePublisher(c.publisher);
    if p.Some? then p else ValidateSubscriber(c.subscriber)
  }

  /** `IsZero`: the config was neither loaded by `New` nor marked. */
  predicate IsZero(c: Config) { !c.processed }

  /** A zero config stays zero through `Mark` exactly when it does not
      validate, and a processed one never becomes zero again. */
  lemma IsZeroAfterMark(c: Config)
    ensures IsZero(Mark(c).0) <==> IsZero(c) && Validate(c).Some?
  {
  }

  /** `Mark`: a copy flagged as processed when it validates; otherwise the
      config unchanged together with the validation error. */
  function Mark(c: Config): (r: (Config, Option<string>))
    ensures r.1 == Validate(c)
    ensures r.1.None? ==> !IsZero(r.0) && r.0.(processed := c.processed) == c
    ensures r.1.Some? ==> r.0 == c
  {
    var err := Validate(c);
    if err.Some? then (c, err) else (c.(processed := true), None)
  }

  /** Validation never looks at the processed flag, so marking a marked
      config again succeeds and changes nothing. */
  lemma MarkIdempotent(c: Config)
    requires Mark(c).1.None?
    ensures Mark(Mark(c).0) == Mark(c)
  {
  }

  /** The process environment, as `os.Getenv` sees it: unset reads as "". */
  function Getenv(env: map<string, string>, key: string): string
  {
    if key in env then env[key] else ""
  }

  /** `ensign.EnvClientID` and `ensign.EnvClientSecret` in go-ensign. */
  const EnvClientID := "ENSIGN_CLIENT_ID"
  const EnvClientSecret := "ENSIGN_CLIENT_SECRET"

  /** The Ensign section once its missing credentials are read from the
      environment. */
  function WithCredentials(c: EnsignConfig, env: map<string, string>): EnsignConfig
  {
    c.(clientID := if c.clientID == "" then Getenv(env, EnvClientID) else c.clientID,
       clientSecret := if c.clientSecret == "" then Getenv(env, EnvClientSecret) else c.clientSecret)
  }

  /** `EnsignConfig.PostProcess`: fill an empty ClientID and ClientSecret
      from the environment; non-empty values and all other fields stay. */
  method PostProcess(c: EnsignConfig, env: map<string, string>) returns (r: EnsignConfig)
    ensures r == WithCredentials(c, env)
    ensures c.clientID != "" ==> r.clientID == c.clientID
    ensures c.clientID == "" ==> r.clientID == Getenv(env, EnvClientID)
    ensures c.clientSecret != "" ==> r.clientSecret == c.clientSecret
    ensures c.clientSecret == "" ==> r.clientSecret == Getenv(env, EnvClientSecret)
    ensures r.(clientID := c.clientID, clientSecret := c.clientSecret) == c
  {
    r := c;
    if r.clientID == "" {
      r := r.(clientID := Getenv(env, EnvClientID));
    }
    if r.clientSecret == "" {
      r := r.(clientSecret := Getenv(env, EnvClientSecret));
    }
  }

  /** `New` after `envconfig.Process`: `loaded` is what the environment
      produced. Enabled Ensign sections are post-processed, the result is
      validated, and a valid config comes back marked as processed. */
  method New(loaded: Result<Config, string>, env: map<string, string>) returns (r: Result<Config, string>)
    ensures loaded.Err? ==> r == loaded
    ensures loaded.Ok? ==> (r.Err? <==> Validate(loaded.value).Some?)
    ensures loaded.Ok? && r.Err? ==> r.error == Validate(loaded.value).value
    ensures r.Ok? ==> !IsZero(r.value) && Validate(r.value).None?
    ensures r.Ok? ==> r.value.(publisher := loaded.value.publisher, subscriber := loaded.value.subscriber,
                               processed := loaded.value.processed) == loaded.value
    ensures r.Ok? && !loaded.value.publisher.ensign.enabled ==> r.value.publisher == loaded.value.publisher
    ensures r.Ok? && !loaded.value.subscriber.ensign.enabled ==> r.value.subscriber == loaded.value.subscriber
    ensures r.Ok? && loaded.value.publisher.ensign.enabled ==>
              r.value.publisher == loaded.value.publisher.(ensign := WithCredentials(loaded.value.publisher.ensign, env))
    ensures r.Ok? && loaded.value.subscriber.ensign.enabled ==>
              r.value.subscriber == loaded.value.subscriber.(ensign := WithCredentials(loaded.value.subscriber.ensign, env))
  {
    if loaded.Err? {
      return loaded;
    }
    var conf := loaded.value;
    if conf.publisher.ensign.enabled {
      var e := PostProcess(conf.publisher.ensign, env);
      conf := conf.(publisher := conf.publisher.(ensign := e));
    }
    if conf.subscriber.ensign.enabled {
      var e := PostProcess(conf.subscriber.ensign, env);
      conf := conf.(subscriber := conf.subscriber.(ensign := e));
    }
    // Validation does not read the Ensign credentials that PostProcess fills.
    assert Validate(conf) == Validate(loaded.value);
    var err := Validate(conf);
    if err.Some? {
      return Err(err.value);
    }
    conf := conf.(processed := true);
    r := Ok(conf);
  }
}
