/** Autoscaler settings of a firehose as values: modules/firehose/keda.go. A driver holds
    defaults per sink type; a firehose overlays its own. */
module Keda {
  import opened Text

  const KAFKA := "kafka"
  const DEFAULT_KEY := "default"
  const SINK_TYPE := "SINK_TYPE"
  const CONSUMER_ID := "SOURCE_KAFKA_CONSUMER_GROUP_ID"
  const KAFKA_BROKERS := "SOURCE_KAFKA_BROKERS"
  const KAFKA_TOPIC := "SOURCE_KAFKA_TOPIC"

  type Env = map<string, string>

  datatype AuthRef = AuthRef(name: string, kind: string)

  /** metadata is None for a nil map: reading it is fine, assigning into it panics. */
  datatype Trigger = Trigger(kind: string, metadata: Option<map<string, string>>, auth: AuthRef)

  datatype Fallback = Fallback(behavior: string, replicas: int, failureThreshold: int)

  datatype Keda = Keda(paused: bool, pausedWithReplica: bool, pausedReplica: int, minReplicas: int, maxReplicas: int,
                       pollingInterval: int, cooldownPeriod: int, triggers: map<string, Trigger>,
                       restoreToOriginal: bool, fallback: Option<Fallback>, hpa: Option<string>)

  const ZERO_KEDA := Keda(false, false, 0, 0, 0, 0, 0, map[], false, None, None)

  function Entries(t: Trigger): map<string, string> {
    if t.metadata.None? then map[] else t.metadata.value
  }

  function DeepCopied(t: Trigger): Trigger { t.(metadata := Some(Entries(t))) }

  function MergeTrigger(base: Trigger, user: Trigger): Trigger {
    Trigger(if user.kind != "" then user.kind else base.kind,
            Some(Entries(base) + Entries(user)),
            if user.auth.name != "" then user.auth else base.auth)
  }

  function Merged(base: map<string, Trigger>, user: map<string, Trigger>): map<string, Trigger> {
    map k | k in base.Keys + user.Keys ::
      if k !in base then user[k] else if k !in user then DeepCopied(base[k]) else MergeTrigger(base[k], user[k])
  }

  /** The metadata entries a kafka trigger takes from the environment. */
  function FromEnv(env: Env): map<string, string> {
    Entry("consumerGroup", CONSUMER_ID, env) + Entry("topic", KAFKA_TOPIC, env) + Entry("bootstrapServers", KAFKA_BROKERS, env)
  }

  /** The environment's value under another name, if it has one. */
  function Entry(name: string, variable: string, env: Env): map<string, string> {
    if variable in env then map[name := env[variable]] else map[]
  }

  function Stamped(t: Trigger, env: Env): Trigger {
    if t.kind == KAFKA && t.metadata.Some? then t.(metadata := Some(t.metadata.value + FromEnv(env))) else t
  }

  /** updateTriggersMetadata assigns into a nil map. */
  predicate StampPanics(triggers: map<string, Trigger>, env: Env) {
    FromEnv(env) != map[] && exists k :: k in triggers && triggers[k].kind == KAFKA && triggers[k].metadata.None?
  }

  function StampedAll(triggers: map<string, Trigger>, env: Env): map<string, Trigger> {
    map k | k in triggers :: Stamped(triggers[k], env)
  }

  /** updateTriggersMetadata; None is its panic. */
  function UpdateTriggers(triggers: map<string, Trigger>, env: Env): Option<map<string, Trigger>> {
    if StampPanics(triggers, env) then None else Some(StampedAll(triggers, env))
  }

  /** The driver's settings for a sink replace its defaults altogether. */
  function BaseFor(driver: map<string, Keda>, env: Env): Keda {
    var sink := if SINK_TYPE in env then env[SINK_TYPE] else "";
    if sink in driver then driver[sink] else if DEFAULT_KEY in driver then driver[DEFAULT_KEY] else ZERO_KEDA
  }

  /** What ReadConfig leaves outside the triggers. */
  function Overlaid(user: Keda, base: Keda, triggers: map<string, Trigger>): Keda {
    base.(triggers := triggers,
          minReplicas := user.minReplicas, maxReplicas := user.maxReplicas,
          fallback := if user.fallback.Some? && user.fallback.value.behavior != "" then user.fallback else base.fallback,
          hpa := if user.hpa.Some? then user.hpa else base.hpa,
          paused := user.paused, pausedWithReplica := user.pausedWithReplica, pausedReplica := user.pausedReplica)
  }

  /** Keda.ReadConfig; None is a panic. */
  function ReadKeda(user: Keda, base: Keda, env: Env): Option<Keda> {
    match UpdateTriggers(Merged(base.triggers, user.triggers), env)
    case None => None
    case Some(triggers) => Some(Overlaid(user, base, triggers))
  }

  predicate Validates(k: Keda) {
    && !(k.minReplicas == 0 && k.maxReplicas == 0)
    && k.minReplicas >= 0
    && k.maxReplicas >= 1
    && k.minReplicas <= k.maxReplicas
    && |k.triggers| != 0
  }

  function PauseAt(k: Keda, replicas: int): Keda { k.(pausedWithReplica := true, pausedReplica := replicas) }

  function Resume(k: Keda): Keda { k.(paused := false, pausedWithReplica := false) }

  /** JSON leaves an empty metadata map out, so it reads back as nil. */
  function StoredTrigger(t: Trigger): Trigger { if Entries(t) == map[] then t.(metadata := None) else t }

  function StoredAll(triggers: map<string, Trigger>): map<string, Trigger> {
    map k | k in triggers :: StoredTrigger(triggers[k])
  }

  function Stored(k: Keda): Keda {
    k.(triggers := StoredAll(k.triggers))
  }

  // ------------------------------------------------------------------ properties

  /** Reading panics exactly when the environment has something to stamp and a kafka trigger
      of the firehose, unknown to the driver, comes without metadata. */
  lemma ReadKedaPanics(user: Keda, base: Keda, env: Env)
    ensures ReadKeda(user, base, env).None? <==>
      && FromEnv(env) != map[]
      && exists k :: k in user.triggers && k !in base.triggers && user.triggers[k].kind == KAFKA && user.triggers[k].metadata.None?
  {
    var m := Merged(base.triggers, user.triggers);
    if StampPanics(m, env) {
      var k :| k in m && m[k].kind == KAFKA && m[k].metadata.None?;
      assert k in user.triggers && k !in base.triggers;
    }
    forall k | k in user.triggers && k !in base.triggers && user.triggers[k].kind == KAFKA && user.triggers[k].metadata.None?
      ensures k in m && m[k].kind == KAFKA && m[k].metadata.None?
    {
    }
  }

  /** Where each metadata entry of a reading comes from: for a kafka trigger the environment
      first, then the firehose's own settings, then the driver's. */
  lemma EntryPrecedence(user: Keda, base: Keda, env: Env, k: string, e: string)
    requires ReadKeda(user, base, env).Some? && (k in base.triggers || k in user.triggers)
    ensures var r := ReadKeda(user, base, env).value.triggers;
      var own := if k in user.triggers then Entries(user.triggers[k]) else map[];
      var inherited := if k in base.triggers then Entries(base.triggers[k]) else map[];
      && k in r
      && (e in Entries(r[k]) <==> (r[k].kind == KAFKA && e in FromEnv(env)) || e in own || e in inherited)
      && (e in Entries(r[k]) ==>
            Entries(r[k])[e] == (if r[k].kind == KAFKA && e in FromEnv(env) then FromEnv(env)[e]
                                 else if e in own then own[e] else inherited[e]))
  {
    hide FromEnv;
    var m := Merged(base.triggers, user.triggers)[k];
    assert ReadKeda(user, base, env).value.triggers[k] == Stamped(m, env);
  }

  /** Kind and credentials of a trigger: the firehose's own where it gives any, else the
      driver's; and whose triggers there are. */
  lemma TriggerPrecedence(user: Keda, base: Keda, env: Env, k: string)
    requires ReadKeda(user, base, env).Some?
    ensures var r := ReadKeda(user, base, env).value.triggers;
      && (k in r <==> k in user.triggers || k in base.triggers)
      && (k in user.triggers && k !in base.triggers ==> r[k].kind == user.triggers[k].kind && r[k].auth == user.triggers[k].auth)
      && (k !in user.triggers && k in base.triggers ==> r[k].kind == base.triggers[k].kind && r[k].auth == base.triggers[k].auth)
      && (k in user.triggers && k in base.triggers ==>
            && r[k].kind == (if user.triggers[k].kind == "" then base.triggers[k].kind else user.triggers[k].kind)
            && r[k].auth == (if user.triggers[k].auth.name == "" then base.triggers[k].auth else user.triggers[k].auth))
  {
    hide FromEnv;
    var m := Merged(base.triggers, user.triggers);
    assert forall j :: j in m ==> ReadKeda(user, base, env).value.triggers[j] == Stamped(m[j], env);
  }

  /** Every kafka trigger of a reading watches the group, topic and brokers of the environment. */
  lemma KafkaWatches(user: Keda, base: Keda, env: Env, k: string)
    requires ReadKeda(user, base, env).Some? && k in ReadKeda(user, base, env).value.triggers
    requires ReadKeda(user, base, env).value.triggers[k].kind == "kafka"
    ensures var e := Entries(ReadKeda(user, base, env).value.triggers[k]);
      && ("SOURCE_KAFKA_CONSUMER_GROUP_ID" in env ==> "consumerGroup" in e && e["consumerGroup"] == env["SOURCE_KAFKA_CONSUMER_GROUP_ID"])
      && ("SOURCE_KAFKA_TOPIC" in env ==> "topic" in e && e["topic"] == env["SOURCE_KAFKA_TOPIC"])
      && ("SOURCE_KAFKA_BROKERS" in env ==> "bootstrapServers" in e && e["bootstrapServers"] == env["SOURCE_KAFKA_BROKERS"])
  {
    hide MergeTrigger;
    var m := Merged(base.triggers, user.triggers);
    assert ReadKeda(user, base, env).value.triggers[k] == Stamped(m[k], env);
    assert m[k].kind == KAFKA && !StampPanics(m, env);
    StampWatches(m[k], env);
  }

  /** Stamping makes a trigger watch them, whatever it watched before. */
  lemma StampWatches(t: Trigger, env: Env)
    requires t.kind == "kafka" && (FromEnv(env) != map[] ==> t.metadata.Some?)
    ensures var e := Entries(Stamped(t, env));
      && ("SOURCE_KAFKA_CONSUMER_GROUP_ID" in env ==> "consumerGroup" in e && e["consumerGroup"] == env["SOURCE_KAFKA_CONSUMER_GROUP_ID"])
      && ("SOURCE_KAFKA_TOPIC" in env ==> "topic" in e && e["topic"] == env["SOURCE_KAFKA_TOPIC"])
      && ("SOURCE_KAFKA_BROKERS" in env ==> "bootstrapServers" in e && e["bootstrapServers"] == env["SOURCE_KAFKA_BROKERS"])
  {
    StampNames();
    if FromEnv(env) == map[] {
      assert forall e :: e in Entry("consumerGroup", CONSUMER_ID, env) ==> e in FromEnv(env);
      assert forall e :: e in Entry("topic", KAFKA_TOPIC, env) ==> e in FromEnv(env);
      assert forall e :: e in Entry("bootstrapServers", KAFKA_BROKERS, env) ==> e in FromEnv(env);
    }
  }

  lemma StampNames()
    ensures "consumerGroup" != "topic" && "topic" != "bootstrapServers" && "consumerGroup" != "bootstrapServers"
  {
    assert |"consumerGroup"| == 13 && |"topic"| == 5 && |"bootstrapServers"| == 16;
  }

  /** Everything else: bounds and pauses are the firehose's, the timing the driver's, fallback and
      scaling behaviour the firehose's where it gives them. */
  lemma SettingPrecedence(user: Keda, base: Keda, env: Env)
    requires ReadKeda(user, base, env).Some?
    ensures var r := ReadKeda(user, base, env).value;
      && r.minReplicas == user.minReplicas && r.maxReplicas == user.maxReplicas
      && r.paused == user.paused && r.pausedWithReplica == user.pausedWithReplica && r.pausedReplica == user.pausedReplica
      && r.pollingInterval == base.pollingInterval && r.cooldownPeriod == base.cooldownPeriod
      && r.restoreToOriginal == base.restoreToOriginal
      && (user.fallback.Some? && user.fallback.value.behavior != "" ==> r.fallback == user.fallback)
      && (user.fallback.None? || user.fallback.value.behavior == "" ==> r.fallback == base.fallback)
      && (user.hpa.Some? ==> r.hpa == user.hpa) && (user.hpa.None? ==> r.hpa == base.hpa)
  {
    hide UpdateTriggers, Merged;
  }

  /** Which settings of the driver count: those of the sink alone, its defaults only where there
      are none, and nothing where there are neither. */
  lemma DriverSettings(driver: map<string, Keda>, env: Env)
    ensures "SINK_TYPE" in env && env["SINK_TYPE"] in driver ==> BaseFor(driver, env) == driver[env["SINK_TYPE"]]
    ensures "SINK_TYPE" in env && env["SINK_TYPE"] !in driver && "default" in driver ==> BaseFor(driver, env) == driver["default"]
    ensures "SINK_TYPE" in env && env["SINK_TYPE"] !in driver && "default" !in driver ==> BaseFor(driver, env).triggers == map[]
  {
  }

  function Opt(triggers: map<string, Trigger>, key: string): Option<Trigger> {
    if key in triggers then Some(triggers[key]) else None
  }

  /** One key of Merged. */
  function MergedOne(base: Option<Trigger>, user: Option<Trigger>): Trigger
    requires base.Some? || user.Some?
  {
    if base.None? then user.value else if user.None? then DeepCopied(base.value) else MergeTrigger(base.value, user.value)
  }

  lemma OverlayTwice(base: map<string, string>, user: map<string, string>, extra: map<string, string>)
    ensures base + ((base + user) + extra) == (base + user) + extra
    ensures base + (base + user) == base + user
    ensures ((base + user) + extra) + extra == (base + user) + extra
    ensures (user + extra) + extra == user + extra
  {
  }

  /** Reading one trigger again, through storage, gives what the first reading gave. */
  lemma TriggerSettles(base: Option<Trigger>, user: Option<Trigger>, env: Env)
    requires base.Some? || user.Some?
    ensures var first := StoredTrigger(Stamped(MergedOne(base, user), env));
      StoredTrigger(Stamped(MergedOne(base, Some(first)), env)) == first
  {
    var first := Stamped(MergedOne(base, user), env);
    var u := if user.None? then map[] else Entries(user.value);
    var stored := StoredTrigger(first);
    assert Entries(stored) == Entries(first);
    if base.Some? {
      var b := Entries(base.value);
      assert b + map[] == b;
      OverlayTwice(b, u, FromEnv(env));
      assert Entries(MergedOne(base, user)) == b + u;
      assert MergedOne(base, Some(stored)).metadata == Some(Entries(first));
    } else {
      OverlayTwice(u, u, FromEnv(env));
    }
  }

  /** A stored reading is a fixed point of reading under the same driver settings. */
  lemma ReadKedaSettles(user: Keda, base: Keda, env: Env)
    requires ReadKeda(user, base, env).Some?
    ensures var once := Stored(ReadKeda(user, base, env).value);
      ReadKeda(once, base, env).Some? && Stored(ReadKeda(once, base, env).value) == once
  {
    var once := Stored(ReadKeda(user, base, env).value);
    StoredReadsAgain(user, base, env);
    TriggersSettle(user.triggers, base.triggers, env);
  }

  /** The triggers of a stored reading, key by key. */
  function ReadTriggers(user: map<string, Trigger>, base: map<string, Trigger>, env: Env): map<string, Trigger> {
    StoredAll(StampedAll(Merged(base, user), env))
  }

  lemma ReadTriggersAt(user: map<string, Trigger>, base: map<string, Trigger>, env: Env, k: string)
    ensures k in ReadTriggers(user, base, env) <==> k in base || k in user
    ensures k in ReadTriggers(user, base, env) ==>
      ReadTriggers(user, base, env)[k] == StoredTrigger(Stamped(MergedOne(Opt(base, k), Opt(user, k)), env))
  {
    hide Stamped, StoredTrigger, MergeTrigger, FromEnv;
  }

  lemma TriggersSettle(user: map<string, Trigger>, base: map<string, Trigger>, env: Env)
    ensures var once := ReadTriggers(user, base, env); ReadTriggers(once, base, env) == once
  {
    hide *;
    var once := ReadTriggers(user, base, env);
    var twice := ReadTriggers(once, base, env);
    forall k ensures k in once <==> k in twice
             ensures k in once ==> twice[k] == once[k]
    {
      ReadTriggersAt(user, base, env, k);
      ReadTriggersAt(once, base, env, k);
      if k in once {
        assert Opt(once, k) == Some(once[k]) && (Opt(base, k).Some? || Opt(user, k).Some?) by { OptAt(once, k); OptAt(base, k); OptAt(user, k); }
        TriggerSettles(Opt(base, k), Opt(user, k), env);
      }
    }
    assert twice == once;
  }

  lemma OptAt(triggers: map<string, Trigger>, k: string)
    ensures Opt(triggers, k) == if k in triggers then Some(triggers[k]) else None
  {
  }

  lemma StoredReadsAgain(user: Keda, base: Keda, env: Env)
    requires ReadKeda(user, base, env).Some?
    ensures ReadKeda(Stored(ReadKeda(user, base, env).value), base, env).Some?
  {
    if FromEnv(env) != map[] {
      StoredReading(user, base, env);
    }
    ReadKedaPanics(Stored(ReadKeda(user, base, env).value), base, env);
  }

  lemma KafkaKeepsMetadata(t: Trigger, env: Env)
    requires FromEnv(env) != map[] && t.kind == KAFKA && t.metadata.Some?
    ensures Entries(StoredTrigger(Stamped(t, env))) != map[]
  {
    var k :| k in FromEnv(env);
    assert k in Entries(Stamped(t, env));
  }

  /** Every kafka trigger has some metadata. */
  predicate KafkaReady(k: Keda) {
    forall key :: key in k.triggers && k.triggers[key].kind == KAFKA ==> Entries(k.triggers[key]) != map[]
  }

  lemma KafkaReadyStored(k: Keda)
    ensures KafkaReady(Stored(k)) <==> KafkaReady(k)
  {
    assert forall key :: key in k.triggers ==> Entries(Stored(k).triggers[key]) == Entries(k.triggers[key]);
    assert forall key :: key in k.triggers ==> Stored(k).triggers[key].kind == k.triggers[key].kind;
    assert Stored(k).triggers.Keys == k.triggers.Keys;
  }

  /** Once read with something to stamp, settings can be read again under any driver
      settings and any environment: no panic, and still valid if they were. */
  lemma ReadKedaAgain(user: Keda, base: Keda, env: Env)
    requires KafkaReady(user)
    ensures ReadKeda(user, base, env).Some?
    ensures Validates(user) ==> Validates(ReadKeda(user, base, env).value)
    ensures ReadKeda(user, base, env).value.paused == user.paused
    ensures ReadKeda(user, base, env).value.pausedWithReplica == user.pausedWithReplica
    ensures ReadKeda(user, base, env).value.pausedReplica == user.pausedReplica
  {
    ReadKedaPanics(user, base, env);
    var r := ReadKeda(user, base, env).value;
    if Validates(user) {
      NonEmptyKeys(user.triggers);
      var k :| k in user.triggers;
      assert k in r.triggers;
    }
  }

  lemma NonEmptyKeys(m: map<string, Trigger>)
    requires |m| != 0
    ensures exists k :: k in m
  {
    assert m.Keys != {};
    var k :| k in m.Keys;
  }

  lemma StoredReading(user: Keda, base: Keda, env: Env)
    requires ReadKeda(user, base, env).Some? && FromEnv(env) != map[]
    ensures KafkaReady(Stored(ReadKeda(user, base, env).value))
  {
    var m := Merged(base.triggers, user.triggers);
    var r := Stored(ReadKeda(user, base, env).value);
    forall key | key in r.triggers && r.triggers[key].kind == KAFKA ensures Entries(r.triggers[key]) != map[] {
      assert key in m && m[key].metadata.Some?;
      KafkaKeepsMetadata(m[key], env);
    }
  }
}
