/**
 Kafka configuration maps, and which of their keys belong to whom
 (internal/publish/publishdriver/managed_keys.go, internal/subscribe/strategy/publisher_config.go,
 subscribe/options.go).
 */
module KafkaConfig {
  import opened Types
  import opened Decimal

  /** A configuration value: the integer types that are read as numbers, a float, and whatever is not. */
  datatype Value = Text(text: string) | Integer(number: int) | Float(approx: real) | Flag(on: bool) | Unreadable

  type KafkaMap = map<string, Value>

  const IN_FLIGHT := "max.in.flight.requests.per.connection"

  /** The publisher's managed keys: ManagedKeyReason has a reason for them. */
  predicate PublisherManages(key: string) {
    || key == "bootstrap.servers" || key == "acks" || key == "request.required.acks"
    || key == "enable.idempotence" || key == "enable.gapless.guarantee" || key == "partitioner"
    || key == "message.timeout.ms" || key == "delivery.timeout.ms" || key == "transactional.id"
    || key == "default.topic.config"
    || "go." <= key || "{topic}." <= key
  }

  /** isConsumerOnly. */
  predicate ConsumerOnly(key: string) {
    || key == "session.timeout.ms" || key == "heartbeat.interval.ms" || key == "max.poll.interval.ms"
    || key == "coordinator.query.interval.ms" || key == "partition.assignment.strategy"
    || key == "max.partition.fetch.bytes" || key == "isolation.level" || key == "consume.callback.max.messages"
    || key == "enable.partition.eof" || key == "check.crcs"
    || "group." <= key || "fetch." <= key || "queued." <= key || "auto." <= key || "enable.auto." <= key
    || "offset.store." <= key
  }

  /** The consumer's managed keys. */
  predicate ConsumerManages(key: string) {
    || key == "bootstrap.servers" || key == "group.id" || key == "enable.auto.commit"
    || key == "auto.commit.interval.ms" || key == "enable.auto.offset.store"
    || key == "partition.assignment.strategy" || key == "group.protocol"
  }

  /** The keys a retry publisher takes over from its consumer. */
  predicate Inherited(key: string) {
    !("go." <= key) && !ConsumerOnly(key) && !PublisherManages(key)
  }

  /** An out-of-range float becomes the smallest int64, as amd64 converts it. */
  function ToInt64(x: real): int {
    if IsInt64(x.Floor) then x.Floor else INT64_MIN
  }

  function IntegerValue(v: Value): Option<int> {
    match v
    case Integer(n) => Some(n)
    case Float(x) => if x.Floor as real == x then Some(ToInt64(x)) else None
    case Text(text) => ParseInt64(text)
    case _ => None
  }

  /** checkInFlightForIdempotence. */
  predicate InFlightAccepted(m: KafkaMap) {
    IN_FLIGHT in m ==> IntegerValue(m[IN_FLIGHT]).Some? && IntegerValue(m[IN_FLIGHT]).value <= 5
  }

  /**
   A limit given as a float, as JSON decoding gives it, is accepted exactly when it is whole and at
   most five, or so large that its conversion goes out of range.
   */
  lemma InFlightAsFloat(x: real)
    ensures InFlightAccepted(map[IN_FLIGHT := Float(x)]) <==>
            x == x.Floor as real && (x <= 5.0 || x > INT64_MAX as real)
  {
    assert IntegerValue(Float(x)).Some? <==> x == x.Floor as real;
  }

  lemma InFlightIsInherited()
    ensures Inherited(IN_FLIGHT)
  {
    assert IN_FLIGHT[0] == 'm' && IN_FLIGHT[4] == 'i' && |IN_FLIGHT| == 37;
  }

  /** PublisherConfig, as a restriction of the consumer's map. */
  function InheritedPart(m: KafkaMap): (r: KafkaMap)
    ensures forall key :: key in r ==> !PublisherManages(key)
  {
    map key | key in m && Inherited(key) :: m[key]
  }

  /** The two tests of PublisherConfig's loop. */
  method IsInherited(key: string) returns (inherited: bool)
    ensures inherited == Inherited(key)
  {
    if "go." <= key || ConsumerOnly(key) {
      return false;
    }
    if PublisherManages(key) {
      return false;
    }
    inherited := true;
  }

  /** What is inherited of the keys looked at so far. */
  function InheritedOf(m: KafkaMap, left: set<string>): KafkaMap {
    map key | key in m && key !in left && Inherited(key) :: m[key]
  }

  lemma OneMoreKey(m: KafkaMap, left: set<string>, key: string)
    requires key in left && key in m
    ensures InheritedOf(m, left - {key}) == if Inherited(key) then InheritedOf(m, left)[key := m[key]] else InheritedOf(m, left)
  {
  }

  method PublisherConfig(kafkaConfig: KafkaMap) returns (config: KafkaMap)
    ensures config == InheritedPart(kafkaConfig)
  {
    config := map[];
    var left := kafkaConfig.Keys;
    while left != {}
      invariant left <= kafkaConfig.Keys
      invariant config == InheritedOf(kafkaConfig, left)
      decreases |left|
    {
      var key :| key in left;
      OneMoreKey(kafkaConfig, left, key);
      left := left - {key};
      var inherited := IsInherited(key);
      if inherited {
        config := config[key := kafkaConfig[key]];
      }
    }
  }

  /** The loop that sets every key of one map in another, in whatever order. */
  method SetAll(base: KafkaMap, over: KafkaMap) returns (r: KafkaMap)
    ensures r == base + over
  {
    r := base;
    var left := over.Keys;
    while left != {}
      invariant left <= over.Keys
      invariant r == base + map key | key in over && key !in left :: over[key]
      decreases |left|
    {
      var key :| key in left;
      r := r[key := over[key]];
      left := left - {key};
    }
  }

  /** No key of the consumer's alone starts with an s, but for one; and no managed key does. */
  lemma ConsumersOwnKey(key: string)
    requires ConsumerOnly(key)
    ensures key != "" && (key[0] != 's' || key == "session.timeout.ms")
  {
  }

  lemma ManagedKey(key: string)
    requires "go." <= key || PublisherManages(key)
    ensures key != "" && key[0] != 's'
  {
  }

  /** What a retry publisher needs to connect the way its consumer does passes: security, SASL and TLS settings. */
  lemma ConnectionKeysPass(key: string)
    requires "security." <= key || "sasl." <= key || "ssl." <= key
    ensures Inherited(key)
  {
    assert key[0] == 's' && (key[1] == 'a' || key[1] == 's' || key[2] == 'c');
    if !Inherited(key) {
      if ConsumerOnly(key) {
        ConsumersOwnKey(key);
      } else {
        ManagedKey(key);
      }
    }
  }

  /** And these do not: what only a consumer understands, the client's own options, and what the publisher manages. */
  lemma OthersDoNotPass(key: string)
    requires "go." <= key || "{topic}." <= key || "group." <= key || "fetch." <= key || "auto." <= key || "enable.auto." <= key
             || key in {"session.timeout.ms", "max.poll.interval.ms", "partition.assignment.strategy", "isolation.level",
                        "bootstrap.servers", "acks", "request.required.acks", "enable.idempotence", "partitioner",
                        "message.timeout.ms", "delivery.timeout.ms", "transactional.id", "default.topic.config"}
    ensures !Inherited(key)
  {
  }

  /** When a limit on requests in flight is accepted: absent, or readable and at most five. */
  lemma WhenInFlightIsAccepted(m: KafkaMap, n: int, text: string)
    ensures IN_FLIGHT !in m ==> InFlightAccepted(m)
    ensures IN_FLIGHT in m && m[IN_FLIGHT] == Integer(n) ==> (InFlightAccepted(m) <==> n <= 5)
    ensures IN_FLIGHT in m && m[IN_FLIGHT] == Text(text) ==>
              (InFlightAccepted(m) <==> ParseInt64(text).Some? && ParseInt64(text).value <= 5)
    ensures IN_FLIGHT in m && (m[IN_FLIGHT].Flag? || m[IN_FLIGHT].Unreadable?) ==> !InFlightAccepted(m)
  {
  }
}
