/**
 What a subscriber's options come to: New, the options and Validate (subscribe/options.go,
 subscribe/subscriber.go), the map its driver hands to librdkafka
 (internal/subscribe/subscribedriver/consumer.go), and the publisher its retry strategy builds from
 the same map (internal/subscribe/strategy/retry.go).
 */
module ConsumerOptions {
  import opened Types
  import opened KafkaConfig
  import P = PublisherOptions

  const MILLISECOND := P.MILLISECOND
  const DEFAULT_BATCH_SIZE := 100
  const DEFAULT_BATCH_TIMEOUT := 5_000 * MILLISECOND

  datatype Setting =
    | WithTopic(topic: string)
    | WithBrokers(brokers: seq<string>)
    | WithConsumerGroup(group: string)
    | WithHandler(isNil: bool)
    | WithBatchHandler(isNil: bool)
    | WithBatchSize(size: int)
    | WithBatchTimeout(timeout: int)
    | WithPollTimeout(timeout: int)
    | WithAutoCommitEvery(interval: int)
    | WithKafkaConfig(kafkaConfig: Option<KafkaMap>)
    | WithOther(isNil: bool)  // an error strategy, a logger or a consumer factory

  datatype Config = Config(
    topic: string,
    brokers: seq<string>,
    group: string,
    handler: bool,
    batchHandler: bool,
    batchMode: bool,
    batchSize: int,
    batchTimeout: int,
    pollTimeout: int,
    autoCommitEvery: int,
    kafkaConfig: KafkaMap)

  function ZeroConfig(): Config {
    Config("", [], "", false, false, false, 0, 0, 0, 0, map[])
  }

  function Apply(c: Config, s: Setting): Option<Config> {
    match s
    case WithTopic(topic) => if topic == "" then None else Some(c.(topic := topic))
    case WithBrokers(brokers) => if brokers == [] || "" in brokers then None else Some(c.(brokers := brokers))
    case WithConsumerGroup(group) => if group == "" then None else Some(c.(group := group))
    case WithHandler(isNil) => if isNil then None else Some(c.(handler := true, batchMode := false))
    case WithBatchHandler(isNil) =>
      if isNil then None
      else Some(c.(batchHandler := true, batchMode := true,
                   batchSize := if c.batchSize <= 0 then DEFAULT_BATCH_SIZE else c.batchSize,
                   batchTimeout := if c.batchTimeout <= 0 then DEFAULT_BATCH_TIMEOUT else c.batchTimeout))
    case WithBatchSize(size) => if size <= 0 then None else Some(c.(batchSize := size))
    case WithBatchTimeout(t) => if t <= 0 then None else Some(c.(batchTimeout := t))
    case WithPollTimeout(t) => if t < 10 * MILLISECOND then None else Some(c.(pollTimeout := t))
    case WithAutoCommitEvery(d) => if d <= 0 then None else Some(c.(autoCommitEvery := d))
    case WithKafkaConfig(m) =>
      if m.None? || exists key :: key in m.value && ConsumerManages(key) then None
      else Some(c.(kafkaConfig := m.value))
    case WithOther(isNil) => if isNil then None else Some(c)
  }

  function ApplyAll(settings: seq<Setting>): Option<Config> {
    if settings == [] then Some(ZeroConfig())
    else
      var before := ApplyAll(settings[..|settings| - 1]);
      if before.None? then None else Apply(before.value, settings[|settings| - 1])
  }

  predicate Validate(c: Config) {
    && c.topic != "" && c.brokers != [] && c.group != ""
    && (c.handler || c.batchHandler) && !(c.handler && c.batchHandler)
    && (c.batchMode ==> c.batchSize > 0 && c.batchTimeout > 0)
  }

  lemma {:induction false} RefusedStaysRefused(settings: seq<Setting>, n: nat)
    requires n <= |settings| && ApplyAll(settings[..n]).None?
    ensures ApplyAll(settings).None?
  {
    if n == |settings| {
      assert settings[..n] == settings;
    } else {
      assert settings[..|settings| - 1][..n] == settings[..n];
      RefusedStaysRefused(settings[..|settings| - 1], n);
    }
  }

  /** New, and ApplyDefaults. */
  method New(settings: seq<Setting>) returns (r: Option<Config>)
    ensures var built := ApplyAll(settings);
            if built.None? || !Validate(built.value) then r == None
            else
              && r.Some? && r.value.pollTimeout >= 10 * MILLISECOND
              && r.value.(pollTimeout := built.value.pollTimeout) == built.value
              && r.value.pollTimeout == if built.value.pollTimeout == 0 then 100 * MILLISECOND else built.value.pollTimeout
  {
    var cfg := ZeroConfig();
    for i := 0 to |settings|
      invariant ApplyAll(settings[..i]) == Some(cfg)
      invariant cfg.pollTimeout == 0 || cfg.pollTimeout >= 10 * MILLISECOND
    {
      assert settings[..i + 1][..i] == settings[..i];
      var next := Apply(cfg, settings[i]);
      if next.None? {
        RefusedStaysRefused(settings, i + 1);
        return None;
      }
      cfg := next.value;
    }
    assert settings[..|settings|] == settings;
    if !Validate(cfg) {
      return None;
    }
    if cfg.pollTimeout == 0 {
      cfg := cfg.(pollTimeout := 100 * MILLISECOND);
    }
    r := Some(cfg);
  }

  // --- What the options mean, whatever their order

  predicate Refused(s: Setting) {
    match s
    case WithTopic(topic) => topic == ""
    case WithBrokers(brokers) => brokers == [] || "" in brokers
    case WithConsumerGroup(group) => group == ""
    case WithHandler(isNil) => isNil
    case WithBatchHandler(isNil) => isNil
    case WithBatchSize(size) => size <= 0
    case WithBatchTimeout(t) => t <= 0
    case WithPollTimeout(t) => t < 10 * MILLISECOND
    case WithAutoCommitEvery(d) => d <= 0
    case WithKafkaConfig(m) => m.None? || exists key :: key in m.value && ConsumerManages(key)
    case WithOther(isNil) => isNil
  }

  /** The last batch size and commit interval asked for, if any. */
  function LastSize(settings: seq<Setting>): Option<int> {
    if settings == [] then None
    else if settings[|settings| - 1].WithBatchSize? then Some(settings[|settings| - 1].size)
    else LastSize(settings[..|settings| - 1])
  }

  function LastInterval(settings: seq<Setting>): Option<int> {
    if settings == [] then None
    else if settings[|settings| - 1].WithAutoCommitEvery? then Some(settings[|settings| - 1].interval)
    else LastInterval(settings[..|settings| - 1])
  }

  function LastBrokers(settings: seq<Setting>): seq<string> {
    if settings == [] then []
    else if settings[|settings| - 1].WithBrokers? then settings[|settings| - 1].brokers
    else LastBrokers(settings[..|settings| - 1])
  }

  function LastGroup(settings: seq<Setting>): string {
    if settings == [] then ""
    else if settings[|settings| - 1].WithConsumerGroup? then settings[|settings| - 1].group
    else LastGroup(settings[..|settings| - 1])
  }

  /** The last topic, poll timeout and batch timeout given, if any. */
  function LastTopic(settings: seq<Setting>): string {
    if settings == [] then ""
    else if settings[|settings| - 1].WithTopic? then settings[|settings| - 1].topic
    else LastTopic(settings[..|settings| - 1])
  }

  function LastPoll(settings: seq<Setting>): int {
    if settings == [] then 0
    else if settings[|settings| - 1].WithPollTimeout? then settings[|settings| - 1].timeout
    else LastPoll(settings[..|settings| - 1])
  }

  function LastBatchTimeout(settings: seq<Setting>): Option<int> {
    if settings == [] then None
    else if settings[|settings| - 1].WithBatchTimeout? then Some(settings[|settings| - 1].timeout)
    else LastBatchTimeout(settings[..|settings| - 1])
  }

  function LastMap(settings: seq<Setting>): KafkaMap {
    if settings == [] then map[]
    else
      var last := settings[|settings| - 1];
      if last.WithKafkaConfig? && last.kafkaConfig.Some? then last.kafkaConfig.value
      else LastMap(settings[..|settings| - 1])
  }

  lemma LastOne(c: Config, s: Setting)
    requires Apply(c, s).Some?
    ensures var d := Apply(c, s).value;
            && d.topic == (if s.WithTopic? then s.topic else c.topic)
            && d.pollTimeout == (if s.WithPollTimeout? then s.timeout else c.pollTimeout)
            && d.brokers == (if s.WithBrokers? then s.brokers else c.brokers)
            && d.group == (if s.WithConsumerGroup? then s.group else c.group)
            && d.kafkaConfig == (if s.WithKafkaConfig? then s.kafkaConfig.value else c.kafkaConfig)
  {
  }

  /** Of each of these the last one given counts. */
  lemma {:induction false} LastOnesCount(settings: seq<Setting>)
    requires ApplyAll(settings).Some?
    ensures var c := ApplyAll(settings).value;
            && c.topic == LastTopic(settings) && c.pollTimeout == LastPoll(settings)
            && c.brokers == LastBrokers(settings) && c.group == LastGroup(settings) && c.kafkaConfig == LastMap(settings)
  {
    if settings != [] {
      var n := |settings| - 1;
      LastOnesCount(settings[..n]);
      LastOne(ApplyAll(settings[..n]).value, settings[n]);
    }
  }

  predicate Given(settings: seq<Setting>, kind: Setting -> bool) {
    exists i :: 0 <= i < |settings| && kind(settings[i])
  }

  const IsTopic := (s: Setting) => s.WithTopic?
  const IsBrokers := (s: Setting) => s.WithBrokers?
  const IsGroup := (s: Setting) => s.WithConsumerGroup?
  const IsHandler := (s: Setting) => s.WithHandler?
  const IsBatchHandler := (s: Setting) => s.WithBatchHandler?

  /** What a configuration built from these options holds. */
  ghost predicate Reflects(c: Config, settings: seq<Setting>) {
    GivenReflects(c, settings) && LastReflects(c, settings)
  }

  ghost predicate GivenReflects(c: Config, settings: seq<Setting>) {
    && (c.topic != "" <==> Given(settings, IsTopic))
    && (c.brokers != [] <==> Given(settings, IsBrokers))
    && (c.group != "" <==> Given(settings, IsGroup))
    && (c.handler <==> Given(settings, IsHandler))
    && (c.batchHandler <==> Given(settings, IsBatchHandler))
  }

  ghost predicate LastReflects(c: Config, settings: seq<Setting>) {
    && (c.batchMode ==> c.batchHandler)
    && (c.batchHandler && !c.handler ==> c.batchMode)
    && (c.batchHandler ==> c.batchSize > 0 && c.batchTimeout > 0)
    && (LastSize(settings).Some? ==> c.batchSize == LastSize(settings).value > 0)
    && (LastSize(settings).None? ==> c.batchSize == if c.batchHandler then DEFAULT_BATCH_SIZE else 0)
    && (LastBatchTimeout(settings).Some? ==> c.batchTimeout == LastBatchTimeout(settings).value > 0)
    && (LastBatchTimeout(settings).None? ==> c.batchTimeout == if c.batchHandler then DEFAULT_BATCH_TIMEOUT else 0)
    && (c.autoCommitEvery > 0 <==> LastInterval(settings).Some?)
    && (LastInterval(settings).Some? ==> c.autoCommitEvery == LastInterval(settings).value)
    && (forall key :: key in c.kafkaConfig ==> !ConsumerManages(key))
  }

  lemma GivenOneMore(settings: seq<Setting>, s: Setting, kind: Setting -> bool)
    ensures Given(settings + [s], kind) <==> Given(settings, kind) || kind(s)
  {
    var all := settings + [s];
    if Given(settings, kind) {
      var i :| 0 <= i < |settings| && kind(settings[i]);
      assert kind(all[i]);
    }
    if kind(s) {
      assert kind(all[|settings|]);
    }
  }

  lemma GivenKeeps(c: Config, before: seq<Setting>, s: Setting)
    requires GivenReflects(c, before) && Apply(c, s).Some?
    ensures GivenReflects(Apply(c, s).value, before + [s])
  {
    GivenOneMore(before, s, IsTopic);
    GivenOneMore(before, s, IsBrokers);
    GivenOneMore(before, s, IsGroup);
    GivenOneMore(before, s, IsHandler);
    GivenOneMore(before, s, IsBatchHandler);
  }

  lemma LastKeeps(c: Config, before: seq<Setting>, s: Setting)
    requires LastReflects(c, before) && Apply(c, s).Some?
    ensures LastReflects(Apply(c, s).value, before + [s])
  {
    assert (before + [s])[..|before|] == before;
  }

  lemma WhenRefused(c: Config, s: Setting)
    ensures Apply(c, s).None? <==> Refused(s)
  {
  }

  lemma {:induction false} WhatOptionsMean(settings: seq<Setting>)
    ensures ApplyAll(settings).Some? <==> forall i :: 0 <= i < |settings| ==> !Refused(settings[i])
    ensures ApplyAll(settings).Some? ==> Reflects(ApplyAll(settings).value, settings)
  {
    if settings != [] {
      var n := |settings| - 1;
      WhatOptionsMean(settings[..n]);
      assert settings == settings[..n] + [settings[n]];
      if ApplyAll(settings[..n]).Some? {
        var c := ApplyAll(settings[..n]).value;
        WhenRefused(c, settings[n]);
        if !Refused(settings[n]) {
          GivenKeeps(c, settings[..n], settings[n]);
          LastKeeps(c, settings[..n], settings[n]);
        }
      }
    }
  }

  /**
   A list of options is accepted exactly when none is refused, topic, brokers and group are given,
   and handlers of exactly one kind.  Batch mode is then on exactly if it is the batch kind, with a
   positive batch size: the last one given, else the default.
   */
  lemma WhenNewAccepts(settings: seq<Setting>)
    ensures var built := ApplyAll(settings);
            built.Some? && Validate(built.value) <==>
            && (forall i :: 0 <= i < |settings| ==> !Refused(settings[i]))
            && Given(settings, IsTopic) && Given(settings, IsBrokers) && Given(settings, IsGroup)
            && (Given(settings, IsHandler) <==> !Given(settings, IsBatchHandler))
    ensures var built := ApplyAll(settings);
            built.Some? && Validate(built.value) && Given(settings, IsBatchHandler) ==>
            && built.value.batchMode
            && built.value.batchSize == (if LastSize(settings).Some? then LastSize(settings).value else DEFAULT_BATCH_SIZE) > 0
            && built.value.batchTimeout ==
               (if LastBatchTimeout(settings).Some? then LastBatchTimeout(settings).value else DEFAULT_BATCH_TIMEOUT) > 0
  {
    WhatOptionsMean(settings);
  }

  // --- The configuration librdkafka gets

  /** What the driver writes before the caller's map. */
  function DriverSettings(c: Config): KafkaMap {
    var first := map[
      "bootstrap.servers" := Text(P.Join(c.brokers)),
      "group.id" := Text(c.group),
      "auto.offset.reset" := Text("earliest"),
      "enable.auto.commit" := Flag(c.autoCommitEvery > 0)];
    var second :=
      if c.autoCommitEvery > 0 then first["auto.commit.interval.ms" := Integer(c.autoCommitEvery / MILLISECOND)] else first;
    second + map[
      "enable.auto.offset.store" := Flag(false),
      "partition.assignment.strategy" := Text("range,roundrobin"),
      "reconnect.backoff.ms" := Integer(100),
      "reconnect.backoff.max.ms" := Integer(10000)]
  }

  /** The first half of the driver's New: its own settings, in order. */
  method WriteSettings(c: Config) returns (configMap: KafkaMap)
    ensures configMap == DriverSettings(c)
  {
    configMap := map["bootstrap.servers" := Text(P.Join(c.brokers))];
    configMap := configMap["group.id" := Text(c.group)];
    configMap := configMap["auto.offset.reset" := Text("earliest")];
    configMap := configMap["enable.auto.commit" := Flag(c.autoCommitEvery > 0)];
    if c.autoCommitEvery > 0 {
      configMap := configMap["auto.commit.interval.ms" := Integer(c.autoCommitEvery / MILLISECOND)];
    }
    configMap := configMap["enable.auto.offset.store" := Flag(false)];
    configMap := configMap["partition.assignment.strategy" := Text("range,roundrobin")];
    configMap := configMap["reconnect.backoff.ms" := Integer(100)];
    configMap := configMap["reconnect.backoff.max.ms" := Integer(10000)];
  }

  /** New of the driver: the caller's map comes last, and wins. */
  method NewConsumer(c: Config) returns (r: Option<KafkaMap>)
    ensures r == if c.brokers == [] || c.topic == "" || c.group == "" then None else Some(DriverSettings(c) + c.kafkaConfig)
  {
    if c.brokers == [] || c.topic == "" || c.group == "" {
      return None;
    }
    var settings := WriteSettings(c);
    var configMap := SetAll(settings, c.kafkaConfig);
    r := Some(configMap);
  }

  /** What the offset protocol needs of a consumer's configuration: its own offset store, and eager revokes. */
  predicate Sound(m: KafkaMap) {
    && "enable.auto.offset.store" in m && m["enable.auto.offset.store"] == Flag(false)
    && "partition.assignment.strategy" in m && m["partition.assignment.strategy"] == Text("range,roundrobin")
    && "group.protocol" !in m
  }

  /** The driver alone does not see to it: its settings hold exactly as long as the caller's map does not say otherwise. */
  lemma DriverAlone(c: Config)
    ensures Sound(DriverSettings(c) + c.kafkaConfig) <==>
            && ("enable.auto.offset.store" in c.kafkaConfig ==> c.kafkaConfig["enable.auto.offset.store"] == Flag(false))
            && ("partition.assignment.strategy" in c.kafkaConfig ==>
                  c.kafkaConfig["partition.assignment.strategy"] == Text("range,roundrobin"))
            && "group.protocol" !in c.kafkaConfig
  {
    NoGroupProtocol(c);
  }

  lemma NoGroupProtocol(c: Config)
    ensures "group.protocol" !in DriverSettings(c)
  {
  }

  /** A map without managed keys leaves the driver's managed settings as they are. */
  lemma ManagedStand(c: Config)
    requires forall key :: key in c.kafkaConfig ==> !ConsumerManages(key)
    ensures forall key :: key in DriverSettings(c) && ConsumerManages(key) ==>
              (DriverSettings(c) + c.kafkaConfig)[key] == DriverSettings(c)[key]
  {
  }

  lemma CommitSetting(c: Config)
    ensures "enable.auto.commit" in DriverSettings(c) && DriverSettings(c)["enable.auto.commit"] == Flag(c.autoCommitEvery > 0)
    ensures ConsumerManages("enable.auto.commit")
  {
  }

  /**
   Every accepted list of options keeps the offset store off and the assignment eager, leaves commits
   to librdkafka exactly when an interval was asked for, and otherwise lets the caller's map decide.
   */
  lemma AcceptedConsumerIsSound(settings: seq<Setting>)
    requires ApplyAll(settings).Some?
    ensures var c := ApplyAll(settings).value;
            var m := DriverSettings(c) + c.kafkaConfig;
            && Sound(m)
            && "enable.auto.commit" in m && m["enable.auto.commit"] == Flag(LastInterval(settings).Some?)
            && (forall key :: key in c.kafkaConfig ==> m[key] == c.kafkaConfig[key])
            && (forall key :: key in DriverSettings(c) && ConsumerManages(key) ==> m[key] == DriverSettings(c)[key])
  {
    var c := ApplyAll(settings).value;
    WhatOptionsMean(settings);
    DriverAlone(c);
    ManagedStand(c);
    CommitSetting(c);
  }

  lemma WhoAndWhere(c: Config)
    ensures var d := DriverSettings(c);
            && "bootstrap.servers" in d && d["bootstrap.servers"] == Text(P.Join(c.brokers))
            && "group.id" in d && d["group.id"] == Text(c.group)
            && "auto.offset.reset" in d && d["auto.offset.reset"] == Text("earliest")
    ensures ConsumerManages("bootstrap.servers") && ConsumerManages("group.id") && !ConsumerManages("auto.offset.reset")
  {
  }

  /**
   Whatever the options, the consumer joins the last group given on the last brokers given, and starts
   from the earliest record unless the last map given says otherwise.
   */
  lemma AcceptedConsumerStartsEarliest(settings: seq<Setting>)
    requires ApplyAll(settings).Some?
    ensures var c := ApplyAll(settings).value;
            var m := DriverSettings(c) + c.kafkaConfig;
            && "bootstrap.servers" in m && m["bootstrap.servers"] == Text(P.Join(LastBrokers(settings)))
            && "group.id" in m && m["group.id"] == Text(LastGroup(settings))
            && "auto.offset.reset" in m
            && m["auto.offset.reset"] ==
               (if "auto.offset.reset" in LastMap(settings) then LastMap(settings)["auto.offset.reset"] else Text("earliest"))
  {
    var c := ApplyAll(settings).value;
    WhatOptionsMean(settings);
    LastOnesCount(settings);
    WhoAndWhere(c);
  }

  /** The background commit interval is at least a millisecond exactly when the one asked for is. */
  lemma IntervalMayBeZero(settings: seq<Setting>)
    requires ApplyAll(settings).Some? && LastInterval(settings).Some?
    ensures var c := ApplyAll(settings).value;
            var m := DriverSettings(c) + c.kafkaConfig;
            && "auto.commit.interval.ms" in m && m["auto.commit.interval.ms"].Integer?
            && (m["auto.commit.interval.ms"].number >= 1 <==> LastInterval(settings).value >= MILLISECOND)
  {
    WhatOptionsMean(settings);
  }

  // --- The retry strategy's publisher

  /** The options Initialize passes to publish.New. */
  function RetryPublisherSettings(brokers: seq<string>, kafkaConfig: KafkaMap, functions: nat): seq<P.Setting> {
    [P.WithBrokers(brokers), P.WithKafkaConfig(Some(InheritedPart(kafkaConfig))), P.WithLogger]
    + seq(functions, _ => P.WithFunction(false))
  }

  lemma NothingRefused(brokers: seq<string>, kafkaConfig: KafkaMap, functions: nat)
    requires brokers != [] && "" !in brokers
    ensures var settings := RetryPublisherSettings(brokers, kafkaConfig, functions);
            && (forall i :: 0 <= i < |settings| ==> !P.Refused(settings[i]))
            && P.NamesBrokers(settings) && P.WithAcksLeader !in settings && P.WithoutIdempotence !in settings
  {
    var settings := RetryPublisherSettings(brokers, kafkaConfig, functions);
    assert settings[0] == P.WithBrokers(brokers);
  }

  lemma RetryPublisherMeans(brokers: seq<string>, kafkaConfig: KafkaMap, functions: nat)
    requires brokers != [] && "" !in brokers
    ensures var built := P.ApplyAll(RetryPublisherSettings(brokers, kafkaConfig, functions));
            && built.Some? && built.value.brokers != [] && built.value.idempotence
            && built.value.kafkaConfig == InheritedPart(kafkaConfig)
  {
    NothingRefused(brokers, kafkaConfig, functions);
    P.WhatOptionsMean(RetryPublisherSettings(brokers, kafkaConfig, functions));
    RetryPublisherMap(brokers, kafkaConfig, functions);
  }

  /**
   Whatever the consumer's map holds, the retry publisher's options never meet a managed key: the
   map makes publish.New fail only for an in-flight limit that cannot be read or is above five.  The
   publisher then has acks=all and idempotence on, and every inherited key has the consumer's value.
   */
  lemma RetryPublisherIsSound(brokers: seq<string>, kafkaConfig: KafkaMap, functions: nat)
    requires brokers != [] && "" !in brokers
    ensures var built := P.ApplyAll(RetryPublisherSettings(brokers, kafkaConfig, functions));
            && built.Some?
            && (P.Validate(built.value) <==> InFlightAccepted(kafkaConfig))
            && var m := P.Overlay(built.value.kafkaConfig, P.DriverSettings(built.value));
               && "acks" in m && m["acks"] == Text("all")
               && "enable.idempotence" in m && m["enable.idempotence"] == Flag(true)
               && (forall key :: key in kafkaConfig && Inherited(key) ==> key in m && m[key] == kafkaConfig[key])
  {
    var settings := RetryPublisherSettings(brokers, kafkaConfig, functions);
    NothingRefused(brokers, kafkaConfig, functions);
    RetryPublisherMeans(brokers, kafkaConfig, functions);
    P.EffectiveConfig(settings);
    SameLimit(kafkaConfig);
  }

  /** The in-flight limit is inherited, so both maps agree on it. */
  lemma SameLimit(kafkaConfig: KafkaMap)
    ensures InFlightAccepted(InheritedPart(kafkaConfig)) <==> InFlightAccepted(kafkaConfig)
  {
    InFlightIsInherited();
  }

  lemma {:induction false} RetryPublisherMap(brokers: seq<string>, kafkaConfig: KafkaMap, functions: nat)
    ensures P.LastMap(RetryPublisherSettings(brokers, kafkaConfig, functions)) == InheritedPart(kafkaConfig)
  {
    var settings := RetryPublisherSettings(brokers, kafkaConfig, functions);
    var n := |settings| - 1;
    if functions == 0 {
      assert settings[..n][1] == P.WithKafkaConfig(Some(InheritedPart(kafkaConfig)));
      assert |settings| == 3 && settings[..n][..1] == settings[..1];
    } else {
      RetryPublisherMap(brokers, kafkaConfig, functions - 1);
      assert settings[..n] == RetryPublisherSettings(brokers, kafkaConfig, functions - 1);
    }
  }
}
