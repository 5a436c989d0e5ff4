/**
 What a publisher's options come to: New and the options (publish/options.go, publish/publisher.go),
 and the configuration the driver hands to librdkafka (internal/publish/publishdriver/config.go).
 */
module PublisherOptions {
  import opened Types
  import opened KafkaConfig

  /** Times are in nanoseconds. */
  const MILLISECOND: int := 1_000_000

  datatype Setting =
    | WithBrokers(brokers: seq<string>)
    | WithKafkaConfig(kafkaConfig: Option<KafkaMap>)  // None: a nil map
    | WithoutIdempotence
    | WithAcksLeader
    | WithPartitioner(partitioner: string)
    | WithDeliveryTimeout(timeout: int)
    | WithLogger
    | WithFunction(isNil: bool)  // a callback, a fatal handler or a producer factory
    | NilSetting

  datatype Config = Config(
    brokers: seq<string>,
    kafkaConfig: KafkaMap,
    idempotence: bool,
    acksLeader: bool,
    partitioner: string,
    deliveryTimeout: int)

  function DefaultConfig(): Config {
    Config([], map[], true, false, "consistent_random", 30_000 * MILLISECOND)
  }

  predicate KnownPartitioner(p: string) {
    p in ["consistent_random", "murmur2_random", "murmur2", "consistent", "random", "fnv1a", "fnv1a_random"]
  }

  /** One option takes effect, unless it is refused. */
  function Apply(c: Config, s: Setting): Option<Config> {
    match s
    case WithBrokers(brokers) => if brokers == [] || "" in brokers then None else Some(c.(brokers := brokers))
    case WithKafkaConfig(m) =>
      if m.None? || exists key :: key in m.value && PublisherManages(key) then None
      else Some(c.(kafkaConfig := m.value))
    case WithoutIdempotence => Some(c.(idempotence := false))
    case WithAcksLeader => Some(c.(acksLeader := true, idempotence := false))
    case WithPartitioner(p) => if KnownPartitioner(p) then Some(c.(partitioner := p)) else None
    case WithDeliveryTimeout(t) =>
      if t < MILLISECOND || t / MILLISECOND > INT32_MAX then None else Some(c.(deliveryTimeout := t))
    case WithLogger => Some(c)
    case WithFunction(isNil) => if isNil then None else Some(c)
    case NilSetting => None
  }

  function ApplyAll(settings: seq<Setting>): Option<Config> {
    if settings == [] then Some(DefaultConfig())
    else
      var before := ApplyAll(settings[..|settings| - 1]);
      if before.None? then None else Apply(before.value, settings[|settings| - 1])
  }

  predicate Validate(c: Config) {
    c.brokers != [] && (c.idempotence ==> InFlightAccepted(c.kafkaConfig))
  }

  lemma {:induction false} RefusedStaysRefused(settings: seq<Setting>, n: nat)
    requires n <= |settings| && ApplyAll(settings[..n]).None?
    ensures ApplyAll(settings).None?
  {
    if n == |settings| {
      assert settings[..n] == settings;
    } else {
      assert settings[..|settings| - 1][..n] == settings[..n];
      RefusedStaysRefused(settings[..|settings| - 1], n);
    }
  }

  /** New, up to the creation of the producer. */
  method New(settings: seq<Setting>) returns (r: Option<Config>)
    ensures var built := ApplyAll(settings);
            r == if built.Some? && Validate(built.value) then built else None
  {
    var built := DefaultConfig();
    for i := 0 to |settings|
      invariant ApplyAll(settings[..i]) == Some(built)
    {
      assert settings[..i + 1][..i] == settings[..i];
      var next := Apply(built, settings[i]);
      if next.None? {
        RefusedStaysRefused(settings, i + 1);
        return None;
      }
      built := next.value;
    }
    assert settings[..|settings|] == settings;
    r := if Validate(built) then Some(built) else None;
  }

  // --- What the options mean, whatever their order

  /** An option that is refused whatever came before it. */
  predicate Refused(s: Setting) {
    || s.NilSetting?
    || s == WithFunction(true)
    || (s.WithBrokers? && (s.brokers == [] || "" in s.brokers))
    || (s.WithKafkaConfig? && (s.kafkaConfig.None? || exists key :: key in s.kafkaConfig.value && PublisherManages(key)))
    || (s.WithPartitioner? && !KnownPartitioner(s.partitioner))
    || (s.WithDeliveryTimeout? && !(MILLISECOND <= s.timeout < (INT32_MAX + 1) * MILLISECOND))
  }

  /** The last map given, or the empty one. */
  function LastMap(settings: seq<Setting>): KafkaMap {
    if settings == [] then map[]
    else
      var last := settings[|settings| - 1];
      if last.WithKafkaConfig? && last.kafkaConfig.Some? then last.kafkaConfig.value
      else LastMap(settings[..|settings| - 1])
  }

  /** The last brokers, partitioner and delivery timeout given, if any. */
  function LastBrokers(settings: seq<Setting>): seq<string> {
    if settings == [] then []
    else if settings[|settings| - 1].WithBrokers? then settings[|settings| - 1].brokers
    else LastBrokers(settings[..|settings| - 1])
  }

  function LastPartitioner(settings: seq<Setting>): string {
    if settings == [] then "consistent_random"
    else if settings[|settings| - 1].WithPartitioner? then settings[|settings| - 1].partitioner
    else LastPartitioner(settings[..|settings| - 1])
  }

  function LastTimeout(settings: seq<Setting>): int {
    if settings == [] then 30_000 * MILLISECOND
    else if settings[|settings| - 1].WithDeliveryTimeout? then settings[|settings| - 1].timeout
    else LastTimeout(settings[..|settings| - 1])
  }

  lemma LastOne(c: Config, s: Setting)
    requires Apply(c, s).Some?
    ensures var d := Apply(c, s).value;
            && d.brokers == (if s.WithBrokers? then s.brokers else c.brokers)
            && d.partitioner == (if s.WithPartitioner? then s.partitioner else c.partitioner)
            && d.deliveryTimeout == (if s.WithDeliveryTimeout? then s.timeout else c.deliveryTimeout)
  {
  }

  /** Of each of these the last one given counts. */
  lemma {:induction false} LastOnesCount(settings: seq<Setting>)
    requires ApplyAll(settings).Some?
    ensures var c := ApplyAll(settings).value;
            && c.brokers == LastBrokers(settings)
            && c.partitioner == LastPartitioner(settings)
            && c.deliveryTimeout == LastTimeout(settings)
  {
    if settings != [] {
      var n := |settings| - 1;
      LastOnesCount(settings[..n]);
      LastOne(ApplyAll(settings[..n]).value, settings[n]);
    }
  }

  predicate NamesBrokers(settings: seq<Setting>) {
    exists i :: 0 <= i < |settings| && settings[i].WithBrokers?
  }

  /** What one option changes. */
  lemma OneOption(c: Config, s: Setting)
    ensures Apply(c, s).Some? <==> !Refused(s)
    ensures Apply(c, s).Some? ==>
              var d := Apply(c, s).value;
              && d.acksLeader == (c.acksLeader || s.WithAcksLeader?)
              && d.idempotence == (c.idempotence && !s.WithAcksLeader? && !s.WithoutIdempotence?)
              && (d.brokers != [] <==> c.brokers != [] || s.WithBrokers?)
              && d.kafkaConfig == (if s.WithKafkaConfig? then s.kafkaConfig.value else c.kafkaConfig)
              && d.deliveryTimeout == (if s.WithDeliveryTimeout? then s.timeout else c.deliveryTimeout)
  {
  }

  /**
   A list of options is accepted exactly when none of them is refused.  Leader acks are on exactly
   when asked for, idempotence exactly when neither option turned it off, and the map is the last
   one given, free of managed keys.
   */
  lemma {:induction false} WhatOptionsMean(settings: seq<Setting>)
    ensures ApplyAll(settings).Some? <==> forall i :: 0 <= i < |settings| ==> !Refused(settings[i])
    ensures ApplyAll(settings).Some? ==>
              var c := ApplyAll(settings).value;
              && (c.acksLeader <==> WithAcksLeader in settings)
              && (c.idempotence <==> WithAcksLeader !in settings && WithoutIdempotence !in settings)
              && (c.brokers != [] <==> NamesBrokers(settings))
              && c.kafkaConfig == LastMap(settings)
              && (forall key :: key in c.kafkaConfig ==> !PublisherManages(key))
              && MILLISECOND <= c.deliveryTimeout < (INT32_MAX + 1) * MILLISECOND
  {
    if settings != [] {
      var n := |settings| - 1;
      WhatOptionsMean(settings[..n]);
      if ApplyAll(settings[..n]).Some? {
        OneOption(ApplyAll(settings[..n]).value, settings[n]);
      }
      assert settings == settings[..n] + [settings[n]];
    }
  }

  /**
   New accepts a list exactly when no option is refused, brokers are given, and the in-flight limit
   is fit for idempotence or that was turned off.
   */
  lemma WhenNewAccepts(settings: seq<Setting>)
    ensures ApplyAll(settings).Some? && Validate(ApplyAll(settings).value) <==>
            && (forall i :: 0 <= i < |settings| ==> !Refused(settings[i]))
            && NamesBrokers(settings)
            && (WithAcksLeader in settings || WithoutIdempotence in settings || InFlightAccepted(LastMap(settings)))
  {
    WhatOptionsMean(settings);
  }

  /** Leader acks rule idempotence out, and idempotence comes with acks=all. */
  lemma LeaderAcksMeansNoIdempotence(settings: seq<Setting>)
    requires ApplyAll(settings).Some?
    ensures !(ApplyAll(settings).value.acksLeader && ApplyAll(settings).value.idempotence)
  {
    WhatOptionsMean(settings);
  }

  // --- The configuration librdkafka gets

  /** strings.Join(brokers, ","). */
  function Join(brokers: seq<string>): string {
    if brokers == [] then ""
    else if |brokers| == 1 then brokers[0]
    else Join(brokers[..|brokers| - 1]) + "," + brokers[|brokers| - 1]
  }

  type Pair = (string, Value)

  /** The settings the driver writes itself. */
  function DriverSettings(c: Config): seq<Pair> {
    [("bootstrap.servers", Text(Join(c.brokers))),
     ("acks", Text(if c.acksLeader then "1" else "all")),
     ("enable.idempotence", Flag(c.idempotence)),
     ("partitioner", Text(c.partitioner)),
     ("message.timeout.ms", Integer(c.deliveryTimeout / MILLISECOND)),
     ("go.delivery.reports", Flag(true)),
     ("go.delivery.report.fields", Text("none"))]
  }

  /** Pairs written over a map, one after the other. */
  function Overlay(m: KafkaMap, pairs: seq<Pair>): KafkaMap {
    if pairs == [] then m
    else Overlay(m, pairs[..|pairs| - 1])[pairs[|pairs| - 1].0 := pairs[|pairs| - 1].1]
  }

  /** ConfigMap: the caller's keys first, then the driver's own over them. */
  method ConfigMap(c: Config) returns (configMap: KafkaMap)
    ensures configMap == Overlay(c.kafkaConfig, DriverSettings(c))
  {
    configMap := SetAll(map[], c.kafkaConfig);
    assert map[] + c.kafkaConfig == c.kafkaConfig;
    var managed := DriverSettings(c);
    for i := 0 to |managed|
      invariant configMap == Overlay(c.kafkaConfig, managed[..i])
    {
      assert managed[..i + 1][..i] == managed[..i];
      configMap := configMap[managed[i].0 := managed[i].1];
    }
    assert managed[..|managed|] == managed;
  }

  predicate DistinctKeys(pairs: seq<Pair>) {
    forall i, j :: 0 <= i < j < |pairs| ==> pairs[i].0 != pairs[j].0
  }

  predicate Writes(pairs: seq<Pair>, key: string) {
    exists i :: 0 <= i < |pairs| && pairs[i].0 == key
  }

  lemma {:induction false} OverlayLookup(m: KafkaMap, pairs: seq<Pair>)
    requires DistinctKeys(pairs)
    ensures forall i :: 0 <= i < |pairs| ==> pairs[i].0 in Overlay(m, pairs) && Overlay(m, pairs)[pairs[i].0] == pairs[i].1
    ensures forall key :: key in Overlay(m, pairs) <==> key in m || Writes(pairs, key)
    ensures forall key :: key in m && !Writes(pairs, key) ==> Overlay(m, pairs)[key] == m[key]
  {
    if pairs != [] {
      var n := |pairs| - 1;
      OverlayLookup(m, pairs[..n]);
      forall key
        ensures Writes(pairs, key) <==> Writes(pairs[..n], key) || pairs[n].0 == key
      {
        if Writes(pairs[..n], key) {
          var i :| 0 <= i < n && pairs[..n][i].0 == key;
          assert pairs[i].0 == key;
        }
      }
    }
  }

  /** The driver writes no key twice, and only keys that no caller can set. */
  lemma DriverKeys(c: Config)
    ensures DistinctKeys(DriverSettings(c))
    ensures forall key :: Writes(DriverSettings(c), key) ==> PublisherManages(key)
  {
  }

  /**
   The effective configuration of every accepted list of options: what the options say about acks,
   idempotence, partitioner and timeout, and everything the caller's map says, none of it overwritten.
   */
  lemma EffectiveConfig(settings: seq<Setting>)
    requires ApplyAll(settings).Some?
    ensures var c := ApplyAll(settings).value;
            var m := Overlay(c.kafkaConfig, DriverSettings(c));
            && (forall key :: key in c.kafkaConfig ==> key in m && m[key] == c.kafkaConfig[key])
            && "acks" in m && m["acks"] == Text(if WithAcksLeader in settings then "1" else "all")
            && "enable.idempotence" in m
            && m["enable.idempotence"] == Flag(WithAcksLeader !in settings && WithoutIdempotence !in settings)
            && "go.delivery.reports" in m && m["go.delivery.reports"] == Flag(true)
            && "message.timeout.ms" in m && m["message.timeout.ms"].Integer? && 1 <= m["message.timeout.ms"].number <= INT32_MAX
  {
    var c := ApplyAll(settings).value;
    WhatOptionsMean(settings);
    DriverKeys(c);
    OverlayLookup(c.kafkaConfig, DriverSettings(c));
    assert DriverSettings(c)[1].0 == "acks" && DriverSettings(c)[2].0 == "enable.idempotence";
    assert DriverSettings(c)[4].0 == "message.timeout.ms" && DriverSettings(c)[5].0 == "go.delivery.reports";
  }

  /** The rest of the effective configuration: brokers, partitioner and delivery timeout are the last ones given. */
  lemma EffectiveRest(settings: seq<Setting>)
    requires ApplyAll(settings).Some?
    ensures var c := ApplyAll(settings).value;
            var m := Overlay(c.kafkaConfig, DriverSettings(c));
            && "bootstrap.servers" in m && m["bootstrap.servers"] == Text(Join(LastBrokers(settings)))
            && "partitioner" in m && m["partitioner"] == Text(LastPartitioner(settings))
            && "message.timeout.ms" in m && m["message.timeout.ms"] == Integer(LastTimeout(settings) / MILLISECOND)
            && "go.delivery.report.fields" in m && m["go.delivery.report.fields"] == Text("none")
  {
    var c := ApplyAll(settings).value;
    LastOnesCount(settings);
    DriverKeys(c);
    OverlayLookup(c.kafkaConfig, DriverSettings(c));
    assert DriverSettings(c)[0].0 == "bootstrap.servers" && DriverSettings(c)[3].0 == "partitioner";
    assert DriverSettings(c)[4].0 == "message.timeout.ms" && DriverSettings(c)[6].0 == "go.delivery.report.fields";
  }

  /** Brokers are joined in order, with a comma between any two. */
  lemma JoinMeans(brokers: seq<string>, more: string)
    ensures Join([more]) == more
    ensures brokers != [] ==> Join(brokers + [more]) == Join(brokers) + "," + more
  {
    assert (brokers + [more])[..|brokers|] == brokers;
  }
}
