/** The configuration of a firehose and how it is read over the driver's:
    modules/firehose/config.go. It is read again at every plan, sync and output. */
module FirehoseConfig {
  import opened Text
  import opened Resources
  import opened Keda
  import opened Names

  const RELEASE_NAME_MAX_LENGTH := 53
  const RELEASE_SUFFIX := "-firehose"
  const PROTO_CLASS := "INPUT_SCHEMA_PROTO_CLASS"

  const SINK_TYPES := {"JDBC", "HTTP", "HTTPV2", "INFLUXDB", "ELASTICSEARCH", "GRPC", "PROMETHEUS", "BLOB", "MONGODB",
                       "LOG", "REDIS", "BIGQUERY", "BIGTABLE", "MAXCOMPUTE"}

  /** A value, an error, or a run-time panic. */
  datatype Reading<+T> = Read(value: T) | Rejected(error: Error) | Panicked

  datatype UsageSpec = UsageSpec(cpu: string, memory: string)

  datatype Usage = Usage(limits: UsageSpec, requests: UsageSpec)

  const NO_USAGE := Usage(UsageSpec("", ""), UsageSpec("", ""))

  datatype Autoscaler = Autoscaler(enabled: bool, spec: Keda)

  datatype Config = Config(stopped: bool, stopTime: Option<int>, replicas: int, namespace: string, deploymentId: string,
                           env: Env, resetOffset: string, limits: UsageSpec, requests: UsageSpec, telegraf: Blob,
                           chart: Blob, initContainer: Blob, autoscaler: Option<Autoscaler>)

  datatype DriverConf = DriverConf(env: Env, namespaces: map<string, string>, usage: map<string, Usage>,
                                   keda: map<string, Keda>, telegraf: Blob, chart: Blob, initContainer: Blob)

  /** What reading needs of the resource. */
  datatype Owner = Owner(project: string, name: string, sha256: string -> string)

  ghost predicate Hashes(o: Owner) { HexDigest(o.sha256, 64) }

  /** A missing key of a Go map reads as the empty string. */
  function Get(m: map<string, string>, k: string): string { if k in m then m[k] else "" }

  function MergeUsage(us: UsageSpec, o: UsageSpec): UsageSpec {
    UsageSpec(if o.cpu != "" then o.cpu else us.cpu, if o.memory != "" then o.memory else us.memory)
  }

  /** The driver's limits and requests for a sink: its defaults overlaid by the sink's own. */
  function UsageFor(dc: DriverConf, sink: string): Usage {
    var rl := if DEFAULT_KEY in dc.usage then dc.usage[DEFAULT_KEY] else NO_USAGE;
    if sink in dc.usage then Usage(MergeUsage(rl.limits, dc.usage[sink].limits), MergeUsage(rl.requests, dc.usage[sink].requests))
    else rl
  }

  function NamespaceFor(dc: DriverConf, sink: string): string {
    if sink in dc.namespaces then dc.namespaces[sink] else Get(dc.namespaces, DEFAULT_KEY)
  }

  /** The part of the JSON schema that can fail on a decoded configuration. */
  predicate SchemaValid(raw: Config) {
    && raw.replicas >= 1
    && SINK_TYPE in raw.env && raw.env[SINK_TYPE] in SINK_TYPES
    && PROTO_CLASS in raw.env && KAFKA_BROKERS in raw.env && KAFKA_TOPIC in raw.env
  }

  /** The release name given to a firehose that brings none. */
  function GeneratedId(o: Owner): (id: string)
    requires Hashes(o)
    ensures 0 < |id| <= RELEASE_NAME_MAX_LENGTH && HasSuffix(id, RELEASE_SUFFIX)
  {
    var name := o.project + "-" + o.name;
    SafeNamePanics(name, RELEASE_SUFFIX, RELEASE_NAME_MAX_LENGTH, o.sha256);
    SafeNameShape(name, RELEASE_SUFFIX, RELEASE_NAME_MAX_LENGTH, o.sha256);
    SafeName(name, RELEASE_SUFFIX, RELEASE_NAME_MAX_LENGTH, o.sha256).value
  }

  function IdOf(raw: Config, o: Owner): string
    requires Hashes(o)
  {
    if raw.deploymentId == "" then GeneratedId(o) else raw.deploymentId
  }

  /** The environment with a consumer group in it. */
  function WithGroup(env: Env, id: string): Env {
    if Get(env, CONSUMER_ID) == "" then env[CONSUMER_ID := id + "-1"] else env
  }

  function Overlay(raw: Config, dc: DriverConf, o: Owner): Config
    requires Hashes(o)
  {
    var env := WithGroup(dc.env + raw.env, IdOf(raw, o));
    var usage := UsageFor(dc, Get(env, SINK_TYPE));
    raw.(env := env, initContainer := dc.initContainer, deploymentId := IdOf(raw, o),
         limits := MergeUsage(usage.limits, raw.limits), requests := MergeUsage(usage.requests, raw.requests),
         namespace := if raw.namespace == "" then NamespaceFor(dc, Get(env, SINK_TYPE)) else raw.namespace)
  }

  function WithKeda(c: Config, spec: Option<Keda>): Reading<Config>
    requires c.autoscaler.Some?
  {
    if spec.None? then Panicked
    else if !Validates(spec.value) then Rejected(ErrInvalid)
    else Read(c.(autoscaler := Some(c.autoscaler.value.(spec := spec.value))))
  }

  /** readConfig as a function. */
  function ConfigRead(raw: Config, dc: DriverConf, o: Owner): Reading<Config>
    requires Hashes(o)
  {
    if !SchemaValid(raw) || |raw.deploymentId| > RELEASE_NAME_MAX_LENGTH then Rejected(ErrInvalid)
    else
      var c := Overlay(raw, dc, o);
      if c.autoscaler.None? || !c.autoscaler.value.enabled then Read(c)
      else WithKeda(c, ReadKeda(c.autoscaler.value.spec, BaseFor(dc.keda, c.env), c.env))
  }

  /** One of the two loops of CloneAndMergeMaps. */
  method CopyInto<K(==), V>(dst: map<K, V>, src: map<K, V>) returns (res: map<K, V>)
    ensures res == dst + src
  {
    res := dst;
    var todo := src.Keys;
    while todo != {}
      invariant todo <= src.Keys
      invariant res + src == dst + src
      invariant forall k :: k in src && k !in todo ==> k in res && res[k] == src[k]
      decreases |todo|
    {
      var k :| k in todo;
      PutAbsorbed(res, src, k);
      res := res[k := src[k]];
      todo := todo - {k};
    }
    Absorbed(res, src);
  }

  lemma PutAbsorbed<K, V>(res: map<K, V>, src: map<K, V>, k: K)
    requires k in src
    ensures res[k := src[k]] + src == res + src
  {
  }

  lemma Absorbed<K, V>(res: map<K, V>, src: map<K, V>)
    requires forall k :: k in src ==> k in res && res[k] == src[k]
    ensures res + src == res
  {
  }

  method CloneAndMergeMaps(m1: map<string, string>, m2: map<string, string>) returns (res: map<string, string>)
    ensures res == m1 + m2
  {
    res := CopyInto(map[], m1);
    assert map[] + m1 == m1;
    res := CopyInto(res, m2);
  }

  lemma ValidReplicas(raw: Config)
    ensures SchemaValid(raw) ==> raw.replicas >= 1
  {
  }

  /** The driver's limits and requests, overridden in turn. */
  method ReadUsage(dc: DriverConf, sink: string) returns (rl: Usage)
    ensures rl == UsageFor(dc, sink)
  {
    rl := if DEFAULT_KEY in dc.usage then dc.usage[DEFAULT_KEY] else NO_USAGE;
    if sink in dc.usage {
      rl := rl.(limits := MergeUsage(rl.limits, dc.usage[sink].limits));
      rl := rl.(requests := MergeUsage(rl.requests, dc.usage[sink].requests));
    }
  }

  /** readConfig as it runs, one field after another. */
  method ReadConfig(raw: Config, dc: DriverConf, o: Owner) returns (r: Reading<Config>)
    requires Hashes(o)
    ensures r == ConfigRead(raw, dc, o)
  {
    hide ReadKeda, BaseFor, Validates, GeneratedId, SchemaValid, MergeUsage, NamespaceFor, UsageFor;
    ValidReplicas(raw);
    var cfg := raw;
    var merged := CloneAndMergeMaps(dc.env, cfg.env);
    cfg := cfg.(env := merged);
    cfg := cfg.(initContainer := dc.initContainer);
    if cfg.replicas <= 0 {
      cfg := cfg.(replicas := 1);
    }
    if !SchemaValid(raw) {
      return Rejected(ErrInvalid);
    }
    if |cfg.deploymentId| == 0 {
      cfg := cfg.(deploymentId := GeneratedId(o));
    } else if |cfg.deploymentId| > RELEASE_NAME_MAX_LENGTH {
      return Rejected(ErrInvalid);
    }
    if Get(cfg.env, CONSUMER_ID) == "" {
      cfg := cfg.(env := cfg.env[CONSUMER_ID := cfg.deploymentId + "-1"]);
    }
    var sink := Get(cfg.env, SINK_TYPE);
    var rl := ReadUsage(dc, sink);
    cfg := cfg.(limits := MergeUsage(rl.limits, cfg.limits));
    cfg := cfg.(requests := MergeUsage(rl.requests, cfg.requests));
    if cfg.namespace == "" {
      cfg := cfg.(namespace := NamespaceFor(dc, sink));
    }
    assert cfg == Overlay(raw, dc, o);
    if cfg.autoscaler.Some? && cfg.autoscaler.value.enabled {
      var spec := ReadKeda(cfg.autoscaler.value.spec, BaseFor(dc.keda, cfg.env), cfg.env);
      if spec.None? {
        return Panicked;
      }
      cfg := cfg.(autoscaler := Some(cfg.autoscaler.value.(spec := spec.value)));
      if !Validates(spec.value) {
        return Rejected(ErrInvalid);
      }
    }
    r := Read(cfg);
  }

  /** What comes back from the table after a configuration is marshalled into it. */
  function StoredConfig(c: Config): Config {
    if c.autoscaler.None? then c else c.(autoscaler := Some(c.autoscaler.value.(spec := Stored(c.autoscaler.value.spec))))
  }

  // ------------------------------------------------------------------ properties

  /** What every stored configuration satisfies. */
  predicate Settled(c: Config) {
    && SchemaValid(c)
    && 0 < |c.deploymentId| <= RELEASE_NAME_MAX_LENGTH
    && Get(c.env, CONSUMER_ID) != ""
    && (c.autoscaler.Some? && c.autoscaler.value.enabled ==>
          Validates(c.autoscaler.value.spec) && KafkaReady(c.autoscaler.value.spec))
  }

  predicate BoundsOk(k: Keda) { 0 <= k.minReplicas <= k.maxReplicas && 1 <= k.maxReplicas }

  lemma EnvStamps(env: Env)
    requires Get(env, CONSUMER_ID) != ""
    ensures FromEnv(env) != map[]
  {
    assert "consumerGroup" in Entry("consumerGroup", CONSUMER_ID, env);
    assert "consumerGroup" in FromEnv(env);
  }

  /** Exactly which configurations are accepted: a valid shape, a release name that fits if
      one is brought along (a generated one always does), and, with the autoscaler on, sane
      replica bounds, at least one trigger of its own or the driver's, and metadata in every
      kafka trigger the driver does not know. */
  lemma ReadAccepts(raw: Config, dc: DriverConf, o: Owner)
    requires Hashes(o)
    ensures ConfigRead(raw, dc, o).Read? <==>
      && raw.replicas >= 1 && "SINK_TYPE" in raw.env && raw.env["SINK_TYPE"] in SINK_TYPES
      && PROTO_CLASS in raw.env && "SOURCE_KAFKA_BROKERS" in raw.env && "SOURCE_KAFKA_TOPIC" in raw.env
      && |raw.deploymentId| <= 53
      && (raw.autoscaler.Some? && raw.autoscaler.value.enabled ==>
            var user, base := raw.autoscaler.value.spec, BaseFor(dc.keda, Overlay(raw, dc, o).env);
            && BoundsOk(user)
            && (user.triggers != map[] || base.triggers != map[])
            && forall k :: k in user.triggers && k !in base.triggers && user.triggers[k].kind == KAFKA ==> user.triggers[k].metadata.Some?)
  {
    if raw.autoscaler.Some? && raw.autoscaler.value.enabled {
      var env := Overlay(raw, dc, o).env;
      var user, base := raw.autoscaler.value.spec, BaseFor(dc.keda, env);
      EnvStamps(env);
      ReadKedaPanics(user, base, env);
      if ReadKeda(user, base, env).Some? {
        ReadKedaValidates(user, base, env);
      }
    }
  }

  lemma EmptyMap<K, V>(m: map<K, V>)
    ensures |m| == 0 <==> m == map[]
    ensures m == map[] <==> m.Keys == {}
  {
    if |m| == 0 {
      assert m.Keys == {};
    }
  }

  lemma ReadKedaKeys(user: Keda, base: Keda, env: Env)
    requires ReadKeda(user, base, env).Some?
    ensures ReadKeda(user, base, env).value.triggers.Keys == base.triggers.Keys + user.triggers.Keys
  {
    hide FromEnv, MergeTrigger, Stamped, StampPanics;
  }

  lemma ReadKedaValidates(user: Keda, base: Keda, env: Env)
    requires ReadKeda(user, base, env).Some?
    ensures Validates(ReadKeda(user, base, env).value) <==> BoundsOk(user) && (user.triggers != map[] || base.triggers != map[])
  {
    hide Merged, UpdateTriggers;
    ReadKedaKeys(user, base, env);
    EmptyMap(user.triggers);
    EmptyMap(base.triggers);
    EmptyMap(ReadKeda(user, base, env).value.triggers);
  }

  /** Whatever is read and stored is settled. */
  lemma ReadSettles(raw: Config, dc: DriverConf, o: Owner)
    requires Hashes(o) && ConfigRead(raw, dc, o).Read?
    ensures Settled(StoredConfig(ConfigRead(raw, dc, o).value))
  {
    hide GeneratedId, ReadKeda, BaseFor, UsageFor, NamespaceFor, FromEnv, Validates, KafkaReady;
    var c := Overlay(raw, dc, o);
    EnvStamps(c.env);
    if c.autoscaler.Some? && c.autoscaler.value.enabled {
      var user, base := c.autoscaler.value.spec, BaseFor(dc.keda, c.env);
      StoredReading(user, base, c.env);
      StoredValidates(ReadKeda(user, base, c.env).value);
    }
  }

  lemma StoredValidates(k: Keda)
    ensures Validates(Stored(k)) <==> Validates(k)
  {
    assert Stored(k).triggers.Keys == k.triggers.Keys;
    assert |Stored(k).triggers| == |Stored(k).triggers.Keys| && |k.triggers| == |k.triggers.Keys|;
  }

  lemma StoredSettles(c: Config)
    ensures Settled(StoredConfig(c)) <==> Settled(c)
  {
    hide Validates, KafkaReady, Stored;
    if c.autoscaler.Some? {
      StoredValidates(c.autoscaler.value.spec);
      KafkaReadyStored(c.autoscaler.value.spec);
    }
  }

  /** The same autoscaler as far as what it may run goes. */
  predicate SameScaling(c: Config, d: Config) {
    && (c.autoscaler.Some? <==> d.autoscaler.Some?)
    && (c.autoscaler.Some? ==>
          var a, b := c.autoscaler.value, d.autoscaler.value;
          && a.enabled == b.enabled && a.spec.paused == b.spec.paused
          && a.spec.pausedWithReplica == b.spec.pausedWithReplica && a.spec.pausedReplica == b.spec.pausedReplica
          && a.spec.minReplicas == b.spec.minReplicas && a.spec.maxReplicas == b.spec.maxReplicas)
  }

  /** What a reading of `c` keeps of it. */
  predicate Keeps(c: Config, r: Config) {
    && r.stopped == c.stopped && r.stopTime == c.stopTime && r.replicas == c.replicas
    && r.deploymentId == c.deploymentId && r.resetOffset == c.resetOffset
    && r.telegraf == c.telegraf && r.chart == c.chart
    && (c.namespace != "" ==> r.namespace == c.namespace)
    && (forall k :: k in c.env ==> k in r.env && r.env[k] == c.env[k])
    && SameScaling(c, r)
  }

  /** The first that is given. */
  function FirstOf(own: string, sink: string, default: string): string {
    if own != "" then own else if sink != "" then sink else default
  }

  function UsageUnder(dc: DriverConf, key: string): Usage { if key in dc.usage then dc.usage[key] else NO_USAGE }

  lemma ReadIsOverlay(raw: Config, dc: DriverConf, o: Owner)
    requires Hashes(o) && ConfigRead(raw, dc, o).Read?
    ensures SchemaValid(raw) && ConfigRead(raw, dc, o).value == Overlay(raw, dc, o).(autoscaler := ConfigRead(raw, dc, o).value.autoscaler)
  {
    hide SchemaValid, Overlay, ReadKeda, BaseFor, Validates;
  }

  lemma SinkOf(raw: Config, dc: DriverConf, o: Owner)
    requires Hashes(o) && SchemaValid(raw)
    ensures "SINK_TYPE" in raw.env && Get(WithGroup(dc.env + raw.env, IdOf(raw, o)), SINK_TYPE) == raw.env["SINK_TYPE"]
  {
    hide GeneratedId, IdOf;
    SinkIsNotGroup();
  }

  /** Where each field of a reading comes from: the name is the firehose's own or generated, the
      namespace its own, else the sink's, else the default; the init container is always the
      driver's; and the rest is the firehose's. */
  lemma FieldPrecedence(raw: Config, dc: DriverConf, o: Owner)
    requires Hashes(o) && ConfigRead(raw, dc, o).Read?
    ensures "SINK_TYPE" in raw.env
    ensures var c, sink := ConfigRead(raw, dc, o).value, raw.env["SINK_TYPE"];
      && c.stopped == raw.stopped && c.stopTime == raw.stopTime && c.replicas == raw.replicas && c.resetOffset == raw.resetOffset
      && c.telegraf == raw.telegraf && c.chart == raw.chart && c.initContainer == dc.initContainer
      && (raw.deploymentId != "" ==> c.deploymentId == raw.deploymentId)
      && (raw.deploymentId == "" ==> 0 < |c.deploymentId| <= 53 && HasSuffix(c.deploymentId, "-firehose"))
      && (raw.namespace != "" ==> c.namespace == raw.namespace)
      && (raw.namespace == "" && sink in dc.namespaces ==> c.namespace == dc.namespaces[sink])
      && (raw.namespace == "" && sink !in dc.namespaces ==> c.namespace == if "default" in dc.namespaces then dc.namespaces["default"] else "")
  {
    hide ConfigRead, GeneratedId, WithGroup, UsageFor, MergeUsage;
    ReadIsOverlay(raw, dc, o);
    SinkOf(raw, dc, o);
  }

  /** Limits and requests are the firehose's own, else the sink's, else the driver's defaults,
      one figure at a time. */
  lemma UsagePrecedence(raw: Config, dc: DriverConf, o: Owner)
    requires Hashes(o) && ConfigRead(raw, dc, o).Read?
    ensures "SINK_TYPE" in raw.env
    ensures var c, s, d := ConfigRead(raw, dc, o).value, UsageUnder(dc, raw.env["SINK_TYPE"]), UsageUnder(dc, "default");
      && c.limits.cpu == FirstOf(raw.limits.cpu, s.limits.cpu, d.limits.cpu)
      && c.limits.memory == FirstOf(raw.limits.memory, s.limits.memory, d.limits.memory)
      && c.requests.cpu == FirstOf(raw.requests.cpu, s.requests.cpu, d.requests.cpu)
      && c.requests.memory == FirstOf(raw.requests.memory, s.requests.memory, d.requests.memory)
  {
    hide ConfigRead, GeneratedId, WithGroup, IdOf;
    ReadIsOverlay(raw, dc, o);
    SinkOf(raw, dc, o);
  }

  /** The environment is the firehose's over the driver's, with a consumer group named after the
      release where the result would have none. */
  lemma EnvPrecedence(raw: Config, dc: DriverConf, o: Owner)
    requires Hashes(o) && ConfigRead(raw, dc, o).Read?
    ensures var c := ConfigRead(raw, dc, o).value;
      && c.env.Keys == raw.env.Keys + dc.env.Keys + {CONSUMER_ID}
      && (forall k :: k in raw.env && k != CONSUMER_ID ==> c.env[k] == raw.env[k])
      && (forall k :: k in dc.env && k !in raw.env && k != CONSUMER_ID ==> c.env[k] == dc.env[k])
      && c.env[CONSUMER_ID] == FirstOf(Get(raw.env, CONSUMER_ID), if CONSUMER_ID in raw.env then "" else Get(dc.env, CONSUMER_ID), c.deploymentId + "-1")
  {
    hide ConfigRead, GeneratedId, IdOf, UsageFor, MergeUsage, NamespaceFor, SchemaValid;
    ReadIsOverlay(raw, dc, o);
  }

  lemma SinkIsNotGroup()
    ensures SINK_TYPE != CONSUMER_ID
  {
    assert |SINK_TYPE| == 9 && |CONSUMER_ID| == 30;
  }

  /** A stored configuration can be read under any driver configuration, however that has
      changed since, and keeps what makes it this firehose. */
  lemma SettledReads(c: Config, dc: DriverConf, o: Owner)
    requires Hashes(o) && Settled(c)
    ensures ConfigRead(c, dc, o).Read? && Keeps(c, ConfigRead(c, dc, o).value)
  {
    hide GeneratedId, ReadKeda, BaseFor, Validates;
    var r := Overlay(c, dc, o);
    if c.autoscaler.Some? && c.autoscaler.value.enabled {
      SettingPrecedenceAgain(c.autoscaler.value.spec, BaseFor(dc.keda, r.env), r.env);
      ReadKedaAgain(c.autoscaler.value.spec, BaseFor(dc.keda, r.env), r.env);
    }
  }

  lemma SettingPrecedenceAgain(user: Keda, base: Keda, env: Env)
    requires KafkaReady(user)
    ensures ReadKeda(user, base, env).Some?
    ensures ReadKeda(user, base, env).value.minReplicas == user.minReplicas && ReadKeda(user, base, env).value.maxReplicas == user.maxReplicas
  {
    hide ReadKeda, KafkaReady;
    ReadKedaAgain(user, base, env);
    SettingPrecedence(user, base, env);
  }

  lemma OverlayFixed(raw: Config, dc: DriverConf, o: Owner)
    requires Hashes(o)
    ensures Overlay(Overlay(raw, dc, o), dc, o) == Overlay(raw, dc, o)
  {
    hide GeneratedId;
    var c := Overlay(raw, dc, o);
    assert GeneratedId(o) != "";
    assert dc.env + c.env == c.env;
  }

  lemma OverlayIgnoresAutoscaler(raw: Config, a: Option<Autoscaler>, dc: DriverConf, o: Owner)
    requires Hashes(o)
    ensures Overlay(raw, dc, o).autoscaler == raw.autoscaler
    ensures Overlay(raw.(autoscaler := a), dc, o) == Overlay(raw, dc, o).(autoscaler := a)
  {
  }

  lemma StoredTwice(k: Keda)
    ensures Stored(Stored(k)) == Stored(k)
  {
    assert Stored(Stored(k)).triggers == Stored(k).triggers;
  }

  /** The fixed point: reading a stored configuration under the driver configuration it was
      read with changes nothing. */
  lemma ReadIsFixed(raw: Config, dc: DriverConf, o: Owner)
    requires Hashes(o) && ConfigRead(raw, dc, o).Read?
    ensures var stored := StoredConfig(ConfigRead(raw, dc, o).value);
      ConfigRead(stored, dc, o).Read? && StoredConfig(ConfigRead(stored, dc, o).value) == stored
  {
    hide GeneratedId, ReadKeda, BaseFor, Validates, Overlay, Stored, SchemaValid, KafkaReady;
    var read := ConfigRead(raw, dc, o).value;
    var stored := StoredConfig(read);
    ReadSettles(raw, dc, o);
    SettledReads(stored, dc, o);
    OverlayFixed(raw, dc, o);
    OverlayIgnoresAutoscaler(Overlay(raw, dc, o), stored.autoscaler, dc, o);
    OverlayIgnoresAutoscaler(raw, raw.autoscaler, dc, o);
    assert stored == Overlay(raw, dc, o).(autoscaler := stored.autoscaler);
    assert Overlay(stored, dc, o) == stored;
    if raw.autoscaler.Some? {
      var env := Overlay(raw, dc, o).env;
      if raw.autoscaler.value.enabled {
        ReadKedaSettles(raw.autoscaler.value.spec, BaseFor(dc.keda, env), env);
      } else {
        StoredTwice(raw.autoscaler.value.spec);
      }
    }
  }

  /** A trigger that watches the group, topic and brokers the firehose consumes with. */
  predicate WatchesOwn(t: Trigger, env: Env) {
    var e := Entries(t);
    && ("SOURCE_KAFKA_CONSUMER_GROUP_ID" in env ==> "consumerGroup" in e && e["consumerGroup"] == env["SOURCE_KAFKA_CONSUMER_GROUP_ID"])
    && ("SOURCE_KAFKA_TOPIC" in env ==> "topic" in e && e["topic"] == env["SOURCE_KAFKA_TOPIC"])
    && ("SOURCE_KAFKA_BROKERS" in env ==> "bootstrapServers" in e && e["bootstrapServers"] == env["SOURCE_KAFKA_BROKERS"])
  }

  predicate TriggersWatch(triggers: map<string, Trigger>, env: Env) {
    forall k :: k in triggers && triggers[k].kind == "kafka" ==> WatchesOwn(triggers[k], env)
  }

  /** An autoscaler that is on scales by the lag of the firehose's own group. */
  predicate Watches(c: Config) {
    c.autoscaler.Some? && c.autoscaler.value.enabled ==> TriggersWatch(c.autoscaler.value.spec.triggers, c.env)
  }

  /** Every reading does. */
  lemma ReadWatches(raw: Config, dc: DriverConf, o: Owner)
    requires Hashes(o) && ConfigRead(raw, dc, o).Read?
    ensures Watches(ConfigRead(raw, dc, o).value)
  {
    hide GeneratedId, ReadKeda, BaseFor, Validates, Entries, SchemaValid, UsageFor, MergeUsage, NamespaceFor, WithGroup;
    var c := Overlay(raw, dc, o);
    if c.autoscaler.Some? && c.autoscaler.value.enabled {
      var user, base := c.autoscaler.value.spec, BaseFor(dc.keda, c.env);
      var r := ReadKeda(user, base, c.env).value;
      forall k | k in r.triggers && r.triggers[k].kind == "kafka" ensures WatchesOwn(r.triggers[k], c.env) {
        KafkaWatches(user, base, c.env, k);
      }
    }
  }

  lemma StoredWatches(c: Config)
    ensures Watches(StoredConfig(c)) <==> Watches(c)
  {
    hide TriggersWatch;
    if c.autoscaler.Some? {
      StoredTriggersWatch(c.autoscaler.value.spec.triggers, c.env);
    }
  }

  lemma StoredTriggersWatch(triggers: map<string, Trigger>, env: Env)
    ensures TriggersWatch(StoredAll(triggers), env) <==> TriggersWatch(triggers, env)
  {
    hide WatchesOwn, StoredTrigger;
    forall k | k in triggers { StoredTriggerWatches(triggers[k], env); }
    assert forall k :: k in triggers ==> StoredAll(triggers)[k] == StoredTrigger(triggers[k]);
  }

  lemma StoredTriggerWatches(t: Trigger, env: Env)
    ensures WatchesOwn(StoredTrigger(t), env) <==> WatchesOwn(t, env)
    ensures StoredTrigger(t).kind == t.kind
  {
  }
}
