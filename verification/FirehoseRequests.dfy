/** What an action on a firehose asks for is what its plan stores: modules/firehose/driver_plan.go,
    action by action, in terms of the stored configuration and the request alone. */
module FirehoseRequests {
  import opened Text
  import opened Resources
  import opened Keda
  import opened FirehoseConfig
  import opened FirehosePlan
  import ConsumerGroup

  predicate SameStop(c: Config, d: Config) { c.stopped == d.stopped && c.stopTime == d.stopTime }

  /** Every entry of env but those named stays. */
  predicate KeepsEnv(env: Env, c: Config, but: set<string>) {
    forall k :: k in env && k !in but ==> k in c.env && c.env[k] == env[k]
  }

  /** The same autoscaler, paused or not. */
  predicate SameBounds(c: Config, d: Config) {
    && (c.autoscaler.Some? <==> d.autoscaler.Some?)
    && (c.autoscaler.Some? ==>
          var a, b := c.autoscaler.value, d.autoscaler.value;
          a.enabled == b.enabled && a.spec.minReplicas == b.spec.minReplicas && a.spec.maxReplicas == b.spec.maxReplicas)
  }

  predicate Unpaused(c: Config) {
    c.autoscaler.Some? ==> !c.autoscaler.value.spec.paused && !c.autoscaler.value.spec.pausedWithReplica
  }

  /** The namespace a firehose of this sink is to be in: the cluster's, else the driver's. */
  predicate InNamespace(c: Config, s: Setting, sink: string) {
    && s.kubeNamespace.Some?
    && (s.kubeNamespace.value != "" ==> c.namespace == s.kubeNamespace.value)
    && (s.kubeNamespace.value == "" && sink in s.dc.namespaces ==> c.namespace == s.dc.namespaces[sink])
    && (s.kubeNamespace.value == "" && sink !in s.dc.namespaces ==>
          c.namespace == if "default" in s.dc.namespaces then s.dc.namespaces["default"] else "")
  }

  /** What is not the action's to change. */
  predicate Carries(stored: Config, c: Config) {
    && c.telegraf == stored.telegraf && SameBounds(stored, c)
    && (stored.namespace != "" ==> c.namespace == stored.namespace)
  }

  /** c is what the request asks to make of the stored configuration. */
  predicate Honours(stored: Config, r: Request, s: Setting, c: Config) {
    match r
    case Scale(n) =>
      && n >= 1 && c.replicas == n
      && SameStop(stored, c) && SameScaling(stored, c) && KeepsEnv(stored.env, c, {})
      && c.resetOffset == stored.resetOffset && c.chart == stored.chart && Carries(stored, c)
    case Start(stopTime) =>
      && !c.stopped && c.stopTime == (if stopTime.Some? then stopTime else stored.stopTime) && Unpaused(c)
      && c.replicas == stored.replicas && KeepsEnv(stored.env, c, {})
      && c.resetOffset == stored.resetOffset && c.chart == stored.chart && Carries(stored, c)
    case Stop =>
      && c.stopped && c.stopTime == stored.stopTime && HeldAtZero(c)
      && c.replicas == stored.replicas && KeepsEnv(stored.env, c, {})
      && c.resetOffset == stored.resetOffset && c.chart == stored.chart && Carries(stored, c)
    case Upgrade =>
      && c.chart == s.dc.chart
      && c.replicas == stored.replicas && SameStop(stored, c) && SameScaling(stored, c) && KeepsEnv(stored.env, c, {})
      && c.resetOffset == stored.resetOffset && Carries(stored, c)
    case Reset(offset) =>
      && c.resetOffset == offset && Get(c.env, AUTO_OFFSET_RESET) == offset
      && ConsumerGroup.Next(Get(stored.env, CONSUMER_ID)) == Some(Get(c.env, CONSUMER_ID))
      && KeepsEnv(stored.env, c, {AUTO_OFFSET_RESET, CONSUMER_ID})
      && c.replicas == stored.replicas && SameStop(stored, c) && SameScaling(stored, c)
      && c.chart == stored.chart && Carries(stored, c)
    case ResetV2(offset) =>
      && c.resetOffset == offset
      && c.replicas == stored.replicas && SameStop(stored, c) && SameScaling(stored, c) && KeepsEnv(stored.env, c, {})
      && c.chart == stored.chart && Carries(stored, c)
    case Update(params) =>
      && c.replicas == params.replicas && SameStop(params, c) && SameScaling(params, c)
      && KeepsEnv(params.env, c, if Get(params.env, CONSUMER_ID) == "" then {CONSUMER_ID} else {})
      && c.resetOffset == params.resetOffset
      && s.chart == Ok(c.chart) && c.telegraf == s.dc.telegraf && c.initContainer == s.dc.initContainer
      && "SINK_TYPE" in params.env && InNamespace(c, s, params.env["SINK_TYPE"])
  }

  /** The steps an action takes: a reset stops the firehose first, and the second kind sets the
      offset in between; everything else is one deployment. */
  predicate Hands(r: Request, state: PlanState, output: Blob, now: int) {
    && state.status == Pending && state.nextSyncAt == Some(now) && state.output == output
    && state.syncResult.retries == 0 && state.syncResult.lastError == ""
    && match r
       case Reset(_) => state.moduleData.pending == [ReleaseStop, ReleaseUpdate]
       case ResetV2(offset) => state.moduleData.pending == [ReleaseStop, KafkaReset, ReleaseUpdate] && state.moduleData.resetTo == offset
       case _ => state.moduleData.pending == [ReleaseUpdate]
  }

  /** The replicas a firehose is to have after an action, before any stop. */
  function WantedReplicas(stored: Config, r: Request): int {
    match r
    case Scale(n) => n
    case Update(params) => params.replicas
    case _ => stored.replicas
  }

  predicate WantsStop(stored: Config, r: Request) {
    match r
    case Stop => true
    case Start(_) => false
    case Update(params) => params.stopped
    case _ => stored.stopped
  }

  function WantedStopTime(stored: Config, r: Request): Option<int> {
    match r
    case Start(Some(t)) => Some(t)
    case Update(params) => params.stopTime
    case _ => stored.stopTime
  }

  predicate TimeIsUp(stopTime: Option<int>, now: int) { stopTime.Some? && stopTime.value < now }

  lemma Wanted(stored: Config, r: Request, s: Setting, c: Config)
    requires Honours(stored, r, s, c)
    ensures c.replicas == WantedReplicas(stored, r) && c.stopped == WantsStop(stored, r) && c.stopTime == WantedStopTime(stored, r)
  {
    hide ConsumerGroup.Next;
  }

  lemma StoredKeeps(c: Config)
    ensures StoredConfig(c).(autoscaler := None) == c.(autoscaler := None)
    ensures SameScaling(c, StoredConfig(c)) && HeldAtZero(StoredConfig(c)) == HeldAtZero(c) && Unpaused(StoredConfig(c)) == Unpaused(c)
  {
    hide StoredAll;
  }

  /** Every accepted action stores what it asks for, under the release name the firehose has. */
  lemma RequestHonoured(stored: Config, r: Request, o: Owner, output: Blob, s: Setting)
    requires Hashes(o) && Settled(stored) && PlanAction(stored, r, o, output, s).Read?
    ensures var p := PlanAction(stored, r, o, output, s).value;
      && Honours(stored, r, s, p.config) && Hands(r, p.state, output, s.now)
      && p.config.deploymentId == stored.deploymentId
  {
    hide ConfigRead, Settled, Stored, Honours, Hands, PlanReset, PlanUpdate;
    SettledReads(stored, s.dc, o);
    var cur := ConfigRead(stored, s.dc, o).value;
    match r {
      case Update(params) => UpdateHonoured(stored, cur, params, o, output, s);
      case Reset(offset) => ResetHonoured(stored, cur, offset, output, s);
      case _ => ChangeHonoured(stored, cur, r, o, output, s);
    }
  }

  lemma StoredHonours(stored: Config, r: Request, s: Setting, c: Config)
    requires Honours(stored, r, s, c)
    ensures Honours(stored, r, s, StoredConfig(c)) && StoredConfig(c).deploymentId == c.deploymentId
  {
    hide StoredConfig, ConsumerGroup.Next;
    StoredKeeps(c);
  }

  /** The configuration each of the plainer actions comes to. */
  function Changed(cur: Config, r: Request, s: Setting): Config {
    match r
    case Scale(n) => cur.(replicas := n)
    case Start(t) => Resumed(cur.(stopped := false, stopTime := if t.Some? then t else cur.stopTime))
    case Stop => Paused(cur.(stopped := true))
    case Upgrade => cur.(chart := s.dc.chart)
    case ResetV2(offset) => cur.(resetOffset := offset)
    case _ => cur
  }

  lemma ChangedHonours(stored: Config, cur: Config, r: Request, s: Setting)
    requires Keeps(stored, cur) && !r.Update? && !r.Reset? && (r.Scale? ==> r.replicas >= 1)
    ensures Honours(stored, r, s, Changed(cur, r, s)) && Changed(cur, r, s).deploymentId == stored.deploymentId
  {
  }

  lemma ChangeHonoured(stored: Config, cur: Config, r: Request, o: Owner, output: Blob, s: Setting)
    requires Hashes(o) && Keeps(stored, cur) && !r.Update? && !r.Reset? && PlanRead(cur, r, o, output, s).Read?
    ensures var p := PlanRead(cur, r, o, output, s).value;
      Honours(stored, r, s, p.config) && Hands(r, p.state, output, s.now) && p.config.deploymentId == stored.deploymentId
  {
    hide StoredConfig, Honours, Keeps, Resumed, Paused;
    ChangedHonours(stored, cur, r, s);
    StoredHonours(stored, r, s, Changed(cur, r, s));
  }

  lemma ResetHonoured(stored: Config, cur: Config, offset: string, output: Blob, s: Setting)
    requires Keeps(stored, cur) && Settled(stored) && PlanReset(cur, offset, output, s).Read?
    ensures var p := PlanReset(cur, offset, output, s).value;
      && Honours(stored, Reset(offset), s, p.config) && Hands(Reset(offset), p.state, output, s.now)
      && p.config.deploymentId == stored.deploymentId
  {
    hide StoredConfig, UpdateTriggers, ConsumerGroup.Next, SchemaValid, Validates, KafkaReady;
    KeysDiffer();
    assert Get(cur.env, CONSUMER_ID) == Get(stored.env, CONSUMER_ID);
    var group := ConsumerGroup.Next(Get(cur.env, CONSUMER_ID)).value;
    var c := cur.(resetOffset := offset, env := WithReset(cur.env, offset, group));
    if c.autoscaler.Some? {
      c := OnSpec(c, c.autoscaler.value.spec.(triggers := UpdateTriggers(c.autoscaler.value.spec.triggers, c.env).value));
    }
    StoredKeeps(c);
  }

  /** The configuration an update comes to. */
  function Updated(cur: Config, next: Config, chart: Blob, s: Setting): Config
    requires s.kubeNamespace.Some?
  {
    next.(deploymentId := cur.deploymentId, chart := chart, telegraf := s.dc.telegraf, initContainer := s.dc.initContainer,
          namespace := if s.kubeNamespace.value != "" then s.kubeNamespace.value else NamespaceFor(s.dc, Get(next.env, SINK_TYPE)))
  }

  lemma UpdatedHonours(stored: Config, cur: Config, params: Config, o: Owner, s: Setting)
    requires Hashes(o) && ConfigRead(params, s.dc, o).Read? && s.kubeNamespace.Some? && s.chart.Ok?
    ensures Honours(stored, Update(params), s, Updated(cur, ConfigRead(params, s.dc, o).value, s.chart.value, s))
  {
    hide ConfigRead;
    FieldPrecedence(params, s.dc, o);
    EnvKept(params, s.dc, o);
    ScalingRead(params, s.dc, o);
    SinkRead(params, s.dc, o);
  }

  lemma EnvKept(params: Config, dc: DriverConf, o: Owner)
    requires Hashes(o) && ConfigRead(params, dc, o).Read?
    ensures KeepsEnv(params.env, ConfigRead(params, dc, o).value, if Get(params.env, CONSUMER_ID) == "" then {CONSUMER_ID} else {})
  {
    hide ConfigRead;
    EnvPrecedence(params, dc, o);
  }

  lemma UpdateHonoured(stored: Config, cur: Config, params: Config, o: Owner, output: Blob, s: Setting)
    requires Hashes(o) && Keeps(stored, cur) && PlanUpdate(cur, params, o, output, s).Read?
    ensures var p := PlanUpdate(cur, params, o, output, s).value;
      && Honours(stored, Update(params), s, p.config) && Hands(Update(params), p.state, output, s.now)
      && p.config.deploymentId == stored.deploymentId
  {
    hide StoredConfig, ConfigRead, Honours, NamespaceFor;
    var c := Updated(cur, ConfigRead(params, s.dc, o).value, s.chart.value, s);
    UpdatedHonours(stored, cur, params, o, s);
    StoredHonours(stored, Update(params), s, c);
  }

  lemma SinkRead(raw: Config, dc: DriverConf, o: Owner)
    requires Hashes(o) && ConfigRead(raw, dc, o).Read?
    ensures SINK_TYPE in raw.env && Get(ConfigRead(raw, dc, o).value.env, SINK_TYPE) == raw.env["SINK_TYPE"]
  {
    hide ConfigRead;
    FieldPrecedence(raw, dc, o);
    EnvPrecedence(raw, dc, o);
    SinkIsNotGroup();
  }

  /** A reading never changes what the autoscaler may run. */
  lemma ScalingRead(raw: Config, dc: DriverConf, o: Owner)
    requires Hashes(o) && ConfigRead(raw, dc, o).Read?
    ensures SameScaling(raw, ConfigRead(raw, dc, o).value)
  {
    hide GeneratedId, ReadKeda, BaseFor, Validates, SchemaValid, UsageFor, MergeUsage, NamespaceFor, WithGroup;
    if raw.autoscaler.Some? && raw.autoscaler.value.enabled {
      SettingPrecedence(raw.autoscaler.value.spec, BaseFor(dc.keda, Overlay(raw, dc, o).env), Overlay(raw, dc, o).env);
    }
  }

  /** Which actions on a stored configuration are accepted, updates and the first kind of reset
      apart, and with what error the others end: a scale to nothing is invalid, the cluster's
      output must be readable and the release must render. The second kind of reset always is. */
  lemma ChangeAcceptedIff(stored: Config, r: Request, o: Owner, output: Blob, s: Setting)
    requires Hashes(o) && Settled(stored) && !r.Update? && !r.Reset?
    ensures PlanAction(stored, r, o, output, s).Read? <==>
      r.ResetV2? || ((r.Scale? ==> r.replicas >= 1) && s.kubeNamespace.Some? && s.render.Ok?)
    ensures !PlanAction(stored, r, o, output, s).Panicked?
    ensures PlanAction(stored, r, o, output, s).Rejected? ==>
      PlanAction(stored, r, o, output, s).error ==
        (if r.Scale? && r.replicas < 1 then ErrInvalid else if s.kubeNamespace.None? then ErrInternal else s.render.error)
  {
    hide ConfigRead, Settled, StoredConfig;
    SettledReads(stored, s.dc, o);
  }

  /** A creation stores what its parameters say, in the cluster's namespace if it has one, under
      a name of its own, and plans one deployment. */
  lemma CreateHonoured(params: Config, o: Owner, s: Setting)
    requires Hashes(o)
    ensures PlanCreate(params, o, s).Read? <==> ConfigRead(params, s.dc, o).Read? && s.chart.Ok? && s.kubeNamespace.Some? && s.render.Ok?
    ensures PlanCreate(params, o, s).Read? ==>
      var p := PlanCreate(params, o, s).value;
      var c := p.config;
      && c.replicas == params.replicas && SameStop(params, c) && SameScaling(params, c)
      && KeepsEnv(params.env, c, if Get(params.env, CONSUMER_ID) == "" then {CONSUMER_ID} else {})
      && c.resetOffset == params.resetOffset && s.chart == Ok(c.chart) && c.telegraf == s.dc.telegraf && c.initContainer == s.dc.initContainer
      && (params.deploymentId != "" ==> c.deploymentId == params.deploymentId)
      && (s.kubeNamespace.value != "" ==> c.namespace == s.kubeNamespace.value)
      && (s.kubeNamespace.value == "" && params.namespace != "" ==> c.namespace == params.namespace)
      && (s.kubeNamespace.value == "" && params.namespace == "" ==> "SINK_TYPE" in params.env && InNamespace(c, s, params.env["SINK_TYPE"]))
      && p.state.status == Pending && p.state.nextSyncAt == Some(s.now) && p.state.syncResult == NO_SYNC_RESULT
      && p.state.moduleData.pending == [ReleaseCreate] && p.state.output == c.namespace + "/" + c.deploymentId
  {
    hide StoredConfig, ConfigRead;
    if PlanCreate(params, o, s).Read? {
      FieldPrecedence(params, s.dc, o);
      EnvPrecedence(params, s.dc, o);
      ScalingRead(params, s.dc, o);
      var conf := ConfigRead(params, s.dc, o).value;
      var ns := if s.kubeNamespace.value != "" then s.kubeNamespace.value else conf.namespace;
      StoredKeeps(conf.(telegraf := s.dc.telegraf, chart := s.chart.value, namespace := ns));
    }
  }

  // ------------------------------------------------------------ what the autoscaler watches

  lemma WatchesIgnoresRest(c: Config, d: Config)
    requires Watches(c) && d.env == c.env
    requires d.autoscaler.Some? ==>
      c.autoscaler.Some? && c.autoscaler.value.enabled == d.autoscaler.value.enabled
      && c.autoscaler.value.spec.triggers == d.autoscaler.value.spec.triggers
    ensures Watches(d)
  {
    hide TriggersWatch;
  }

  lemma RestampedWatch(triggers: map<string, Trigger>, env: Env)
    requires UpdateTriggers(triggers, env).Some?
    ensures TriggersWatch(UpdateTriggers(triggers, env).value, env)
  {
    hide FromEnv, WatchesOwn, Stamped;
    var stamped := UpdateTriggers(triggers, env).value;
    forall k | k in stamped && stamped[k].kind == "kafka" ensures WatchesOwn(stamped[k], env) {
      assert stamped[k] == Stamped(triggers[k], env);
      OneWatches(triggers[k], env);
    }
  }

  lemma OneWatches(t: Trigger, env: Env)
    requires FromEnv(env) != map[] && t.kind == "kafka" ==> t.metadata.Some?
    ensures Stamped(t, env).kind == t.kind
    ensures t.kind == "kafka" ==> WatchesOwn(Stamped(t, env), env)
  {
    if t.kind == "kafka" {
      StampWatches(t, env);
    }
  }

  /** An autoscaler that is on scales by the group its firehose consumes with after every
      action, even the reset that changes the group. */
  lemma ActionWatches(stored: Config, r: Request, o: Owner, output: Blob, s: Setting)
    requires Hashes(o) && PlanAction(stored, r, o, output, s).Read?
    ensures Watches(PlanAction(stored, r, o, output, s).value.config)
  {
    hide ConfigRead, StoredConfig, Watches, NamespaceFor, UpdateTriggers, ConsumerGroup.Next, WithReset;
    ReadWatches(stored, s.dc, o);
    var cur := ConfigRead(stored, s.dc, o).value;
    match r {
      case Update(params) =>
        ReadWatches(params, s.dc, o);
        var next := ConfigRead(params, s.dc, o).value;
        var ns := if s.kubeNamespace.value != "" then s.kubeNamespace.value else NamespaceFor(s.dc, Get(next.env, SINK_TYPE));
        KeepsWatching(next, next.(deploymentId := cur.deploymentId, chart := s.chart.value, telegraf := s.dc.telegraf,
                                  initContainer := s.dc.initContainer, namespace := ns));
      case Scale(n) => KeepsWatching(cur, cur.(replicas := n));
      case Start(t) => KeepsWatching(cur, Resumed(cur.(stopped := false, stopTime := if t.Some? then t else cur.stopTime)));
      case Stop => KeepsWatching(cur, Paused(cur.(stopped := true)));
      case Upgrade => KeepsWatching(cur, cur.(chart := s.dc.chart));
      case ResetV2(offset) => KeepsWatching(cur, cur.(resetOffset := offset));
      case Reset(offset) => ResetWatches(cur, offset, output, s);
    }
  }

  lemma KeepsWatching(c: Config, d: Config)
    requires Watches(c) && d.env == c.env
    requires d.autoscaler.Some? ==>
      c.autoscaler.Some? && c.autoscaler.value.enabled == d.autoscaler.value.enabled
      && c.autoscaler.value.spec.triggers == d.autoscaler.value.spec.triggers
    ensures Watches(StoredConfig(d))
  {
    hide Watches, StoredConfig;
    WatchesIgnoresRest(c, d);
    StoredWatches(d);
  }

  lemma ResetWatches(cur: Config, offset: string, output: Blob, s: Setting)
    requires PlanReset(cur, offset, output, s).Read?
    ensures Watches(PlanReset(cur, offset, output, s).value.config)
  {
    hide StoredConfig, UpdateTriggers, ConsumerGroup.Next, WithReset, TriggersWatch;
    var env := WithReset(cur.env, offset, ConsumerGroup.Next(Get(cur.env, CONSUMER_ID)).value);
    var c := cur.(resetOffset := offset, env := env);
    if c.autoscaler.Some? {
      RestampedWatch(c.autoscaler.value.spec.triggers, env);
      c := OnSpec(c, c.autoscaler.value.spec.(triggers := UpdateTriggers(c.autoscaler.value.spec.triggers, env).value));
    }
    StoredWatches(c);
  }
}
