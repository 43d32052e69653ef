/** Planning actions on a firehose, and what stays with it over its lifetime:
    modules/firehose/driver_plan.go. */
module FirehosePlan {
  import opened Text
  import opened Resources
  import opened Keda
  import opened FirehoseConfig
  import ConsumerGroup

  const AUTO_OFFSET_RESET := "SOURCE_KAFKA_CONSUMER_CONFIG_AUTO_OFFSET_RESET"

  datatype Step = ReleaseCreate | ReleaseUpdate | ReleaseStop | KafkaReset

  /** The steps still to run, and the offset a reset goes to. */
  datatype ModuleData = ModuleData(pending: seq<Step>, resetTo: string)

  const NOTHING_PENDING := ModuleData([], "")

  type PlanState = State<Blob, ModuleData>

  datatype Request =
    | Update(params: Config)
    | Scale(replicas: int)
    | Start(stopTime: Option<int>)
    | Stop
    | Upgrade
    | Reset(offset: string)
    | ResetV2(offset: string)

  /** What planning meets outside the resource: the driver's configuration, the namespace in
      the cluster's output (None if that output is unreadable), the outcomes of merging chart
      values and of rendering the release, and the time. */
  datatype Setting = Setting(dc: DriverConf, kubeNamespace: Option<string>, chart: Result<Blob>, render: Result<()>, now: int)

  datatype Planned = Planned(config: Config, state: PlanState)

  function Scheduled(steps: seq<Step>, resetTo: string, output: Blob, now: int): PlanState {
    State(Pending, output, ModuleData(steps, resetTo), Some(now), NO_SYNC_RESULT)
  }

  /** The last stretch of planCreate and planChange: store the configuration, check that a
      release can be rendered, schedule one step. */
  function Finish(c: Config, step: Step, output: Blob, s: Setting): Reading<Planned> {
    if s.kubeNamespace.None? then Rejected(ErrInternal)
    else if s.render.Err? then Rejected(s.render.error)
    else Read(Planned(StoredConfig(c), Scheduled([step], "", output, s.now)))
  }

  function PlanCreate(params: Config, o: Owner, s: Setting): Reading<Planned>
    requires Hashes(o)
  {
    match ConfigRead(params, s.dc, o)
    case Panicked => Panicked
    case Rejected(e) => Rejected(e)
    case Read(conf) =>
      if s.chart.Err? then Rejected(s.chart.error)
      else if s.kubeNamespace.None? then Rejected(ErrInternal)
      else
        var ns := if s.kubeNamespace.value != "" then s.kubeNamespace.value else conf.namespace;
        Finish(conf.(telegraf := s.dc.telegraf, chart := s.chart.value, namespace := ns), ReleaseCreate, ns + "/" + conf.deploymentId, s)
  }

  /** The update branch of planChange; cur is the configuration as read. */
  function PlanUpdate(cur: Config, params: Config, o: Owner, output: Blob, s: Setting): Reading<Planned>
    requires Hashes(o)
  {
    match ConfigRead(params, s.dc, o)
    case Panicked => Panicked
    case Rejected(e) => Rejected(e)
    case Read(next) =>
      if s.chart.Err? then Rejected(s.chart.error)
      else if s.kubeNamespace.None? then Rejected(ErrInternal)
      else
        var ns := if s.kubeNamespace.value != "" then s.kubeNamespace.value else NamespaceFor(s.dc, Get(next.env, SINK_TYPE));
        if cur.namespace != ns && !cur.stopped then Rejected(ErrInvalid)
        else
          Finish(next.(deploymentId := cur.deploymentId, chart := s.chart.value, telegraf := s.dc.telegraf,
                       initContainer := s.dc.initContainer, namespace := ns), ReleaseUpdate, output, s)
  }

  function OnSpec(c: Config, spec: Keda): Config
    requires c.autoscaler.Some?
  {
    c.(autoscaler := Some(c.autoscaler.value.(spec := spec)))
  }

  function Paused(c: Config): Config {
    if c.autoscaler.None? then c else OnSpec(c, PauseAt(c.autoscaler.value.spec, 0))
  }

  /** Held at zero replicas by the autoscaler, if there is one. */
  predicate HeldAtZero(c: Config) {
    c.autoscaler.Some? ==> c.autoscaler.value.spec.pausedWithReplica && c.autoscaler.value.spec.pausedReplica == 0
  }

  function Resumed(c: Config): Config {
    if c.autoscaler.None? then c else OnSpec(c, Resume(c.autoscaler.value.spec))
  }

  function WithReset(env: Env, offset: string, group: string): Env {
    env[AUTO_OFFSET_RESET := offset][CONSUMER_ID := group]
  }

  /** planReset; the autoscaler's triggers follow the new group, whether it is on or off. */
  function PlanReset(cur: Config, offset: string, output: Blob, s: Setting): Reading<Planned> {
    match ConsumerGroup.Next(Get(cur.env, CONSUMER_ID))
    case None => Rejected(ErrInternal)
    case Some(group) =>
      var env := WithReset(cur.env, offset, group);
      var c := cur.(resetOffset := offset, env := env);
      var steps := [ReleaseStop, ReleaseUpdate];
      if c.autoscaler.None? then Read(Planned(StoredConfig(c), Scheduled(steps, "", output, s.now)))
      else
        match UpdateTriggers(c.autoscaler.value.spec.triggers, env)
        case None => Panicked
        case Some(triggers) =>
          Read(Planned(StoredConfig(OnSpec(c, c.autoscaler.value.spec.(triggers := triggers))), Scheduled(steps, "", output, s.now)))
  }

  function PlanRead(cur: Config, r: Request, o: Owner, output: Blob, s: Setting): Reading<Planned>
    requires Hashes(o)
  {
    match r
    case Update(params) => PlanUpdate(cur, params, o, output, s)
    case Scale(n) => if n < 1 then Rejected(ErrInvalid) else Finish(cur.(replicas := n), ReleaseUpdate, output, s)
    case Start(stopTime) =>
      Finish(Resumed(cur.(stopped := false, stopTime := if stopTime.Some? then stopTime else cur.stopTime)), ReleaseUpdate, output, s)
    case Stop => Finish(Paused(cur.(stopped := true)), ReleaseUpdate, output, s)
    case Upgrade => Finish(cur.(chart := s.dc.chart), ReleaseUpdate, output, s)
    case Reset(offset) => PlanReset(cur, offset, output, s)
    case ResetV2(offset) =>
      Read(Planned(StoredConfig(cur.(resetOffset := offset)),
                   Scheduled([ReleaseStop, KafkaReset, ReleaseUpdate], offset, output, s.now)))
  }

  /** Plan for every action but create, on a stored configuration. */
  function PlanAction(stored: Config, r: Request, o: Owner, output: Blob, s: Setting): Reading<Planned>
    requires Hashes(o)
  {
    match ConfigRead(stored, s.dc, o)
    case Panicked => Panicked
    case Rejected(e) => Rejected(e)
    case Read(cur) => PlanRead(cur, r, o, output, s)
  }

  // ------------------------------------------------------------ what a plan is

  /** Steps that end in a deployment of the stored configuration, after at most one stop. */
  predicate EndsInRelease(steps: seq<Step>) {
    steps != [] && (steps[|steps| - 1].ReleaseCreate? || steps[|steps| - 1].ReleaseUpdate?)
  }

  /** What every plan must hand over. */
  predicate GoodPlan(p: Planned) {
    && Settled(p.config)
    && p.state.IsScheduled() && p.state.status == Pending && p.state.syncResult == NO_SYNC_RESULT
    && EndsInRelease(p.state.moduleData.pending)
  }

  lemma FinishIsGood(c: Config, step: Step, output: Blob, s: Setting)
    requires Settled(c) && (step.ReleaseCreate? || step.ReleaseUpdate?) && Finish(c, step, output, s).Read?
    ensures GoodPlan(Finish(c, step, output, s).value)
  {
    hide Settled;
    StoredSettles(c);
  }

  lemma KeysDiffer()
    ensures SINK_TYPE != CONSUMER_ID && SINK_TYPE != AUTO_OFFSET_RESET
    ensures CONSUMER_ID != AUTO_OFFSET_RESET
  {
    assert |SINK_TYPE| == 9 && |CONSUMER_ID| == 30 && |AUTO_OFFSET_RESET| == 46;
  }

  lemma ResetEnv(c: Config, offset: string, group: string)
    requires Settled(c) && group != ""
    ensures SchemaValid(c.(env := WithReset(c.env, offset, group)))
    ensures Get(WithReset(c.env, offset, group), CONSUMER_ID) == group
  {
    KeysDiffer();
    assert WithReset(c.env, offset, group)[SINK_TYPE] == c.env[SINK_TYPE];
  }

  /** The triggers of a reset are still valid ones. */
  lemma RestampedReady(k: Keda, env: Env)
    requires UpdateTriggers(k.triggers, env).Some?
    ensures var k' := k.(triggers := UpdateTriggers(k.triggers, env).value);
      (Validates(k) ==> Validates(k')) && (KafkaReady(k) ==> KafkaReady(k'))
  {
    var k' := k.(triggers := UpdateTriggers(k.triggers, env).value);
    assert k'.triggers.Keys == k.triggers.Keys;
    assert |k'.triggers| == |k'.triggers.Keys| && |k.triggers| == |k.triggers.Keys|;
    forall key | key in k.triggers && k.triggers[key].kind == KAFKA && Entries(k.triggers[key]) != map[]
      ensures Entries(k'.triggers[key]) != map[]
    {
      var e :| e in Entries(k.triggers[key]);
      assert e in Entries(k'.triggers[key]);
    }
  }

  lemma NextGroupNonEmpty(group: string)
    requires ConsumerGroup.Next(group).Some?
    ensures ConsumerGroup.Next(group).value != ""
  {
  }

  lemma ResetIsGood(cur: Config, offset: string, output: Blob, s: Setting)
    requires Settled(cur) && PlanReset(cur, offset, output, s).Read?
    ensures GoodPlan(PlanReset(cur, offset, output, s).value)
  {
    hide Validates, KafkaReady, UpdateTriggers, SchemaValid, WithReset;
    var group := ConsumerGroup.Next(Get(cur.env, CONSUMER_ID)).value;
    NextGroupNonEmpty(Get(cur.env, CONSUMER_ID));
    hide ConsumerGroup.Next, Get;
    ResetEnv(cur, offset, group);
    var env := WithReset(cur.env, offset, group);
    var c := cur.(resetOffset := offset, env := env);
    SchemaIgnoresRest(cur.(env := env), c);
    if c.autoscaler.Some? {
      RestampedReady(c.autoscaler.value.spec, env);
      c := OnSpec(c, c.autoscaler.value.spec.(triggers := UpdateTriggers(c.autoscaler.value.spec.triggers, env).value));
      SchemaIgnoresRest(cur.(env := env), c);
    }
    StoredSettles(c);
  }

  lemma SchemaIgnoresRest(c: Config, d: Config)
    requires c.env == d.env && (d.replicas >= 1 || d.replicas == c.replicas)
    ensures SchemaValid(c) ==> SchemaValid(d)
  {
  }

  lemma ReadIsSettled(raw: Config, dc: DriverConf, o: Owner)
    requires Hashes(o) && ConfigRead(raw, dc, o).Read?
    ensures Settled(ConfigRead(raw, dc, o).value)
  {
    hide ConfigRead, Settled;
    ReadSettles(raw, dc, o);
    StoredSettles(ConfigRead(raw, dc, o).value);
  }

  /** Creation hands over a settled configuration, a scheduled pending state, and one step
      that deploys it. */
  lemma CreateIsGood(params: Config, o: Owner, s: Setting)
    requires Hashes(o) && PlanCreate(params, o, s).Read?
    ensures GoodPlan(PlanCreate(params, o, s).value)
    ensures PlanCreate(params, o, s).value.state.moduleData.pending == [ReleaseCreate]
  {
    hide ConfigRead, SchemaValid, Validates, KafkaReady;
    ReadIsSettled(params, s.dc, o);
    var conf := ConfigRead(params, s.dc, o).value;
    var c := conf.(telegraf := s.dc.telegraf, chart := s.chart.value,
                   namespace := if s.kubeNamespace.value != "" then s.kubeNamespace.value else conf.namespace);
    SchemaIgnoresRest(conf, c);
    FinishIsGood(c, ReleaseCreate, c.namespace + "/" + c.deploymentId, s);
  }

  /** So does every other action, on any settled configuration and under any driver
      configuration. */
  lemma ActionIsGood(stored: Config, r: Request, o: Owner, output: Blob, s: Setting)
    requires Hashes(o) && Settled(stored) && PlanAction(stored, r, o, output, s).Read?
    ensures GoodPlan(PlanAction(stored, r, o, output, s).value)
  {
    hide ConfigRead, SchemaValid, Validates, KafkaReady, PlanReset, GoodPlan;
    ReadIsSettled(stored, s.dc, o);
    var cur := ConfigRead(stored, s.dc, o).value;
    ReadIsGood(cur, r, o, output, s);
  }

  lemma ReadIsGood(cur: Config, r: Request, o: Owner, output: Blob, s: Setting)
    requires Hashes(o) && Settled(cur) && PlanRead(cur, r, o, output, s).Read?
    ensures GoodPlan(PlanRead(cur, r, o, output, s).value)
  {
    hide ConfigRead, SchemaValid, Validates, KafkaReady, PlanReset, GoodPlan;
    match r {
      case Update(params) =>
        UpdateIsGood(cur, params, o, output, s);
      case Scale(n) =>
        SchemaIgnoresRest(cur, cur.(replicas := n));
        FinishIsGood(cur.(replicas := n), ReleaseUpdate, output, s);
      case Start(stopTime) =>
        var c := cur.(stopped := false, stopTime := if stopTime.Some? then stopTime else cur.stopTime);
        PausingSettles(cur, c);
        FinishIsGood(Resumed(c), ReleaseUpdate, output, s);
      case Stop =>
        PausingSettles(cur, cur.(stopped := true));
        FinishIsGood(Paused(cur.(stopped := true)), ReleaseUpdate, output, s);
      case Upgrade =>
        SchemaIgnoresRest(cur, cur.(chart := s.dc.chart));
        FinishIsGood(cur.(chart := s.dc.chart), ReleaseUpdate, output, s);
      case Reset(offset) =>
        ResetIsGood(cur, offset, output, s);
      case ResetV2(offset) =>
        var c := cur.(resetOffset := offset);
        SchemaIgnoresRest(cur, c);
        StoredSettles(c);
        assert GoodPlan(PlanRead(cur, r, o, output, s).value) by { GoodReset(c, offset, output, s); }
    }
  }

  lemma GoodReset(c: Config, offset: string, output: Blob, s: Setting)
    requires Settled(StoredConfig(c))
    ensures GoodPlan(Planned(StoredConfig(c), Scheduled([ReleaseStop, KafkaReset, ReleaseUpdate], offset, output, s.now)))
  {
    hide Settled;
  }

  lemma PausingSettles(cur: Config, c: Config)
    requires Settled(cur)
    requires c.env == cur.env && c.replicas == cur.replicas && c.deploymentId == cur.deploymentId && c.autoscaler == cur.autoscaler
    ensures Settled(Paused(c)) && Settled(Resumed(c))
  {
    hide SchemaValid;
    SchemaIgnoresRest(cur, Paused(c));
    SchemaIgnoresRest(cur, Resumed(c));
  }

  lemma UpdateIsGood(cur: Config, params: Config, o: Owner, output: Blob, s: Setting)
    requires Hashes(o) && Settled(cur) && PlanUpdate(cur, params, o, output, s).Read?
    ensures GoodPlan(PlanUpdate(cur, params, o, output, s).value)
  {
    hide ConfigRead, SchemaValid, Validates, KafkaReady, GoodPlan, NamespaceFor;
    ReadIsSettled(params, s.dc, o);
    var next := ConfigRead(params, s.dc, o).value;
    var ns := if s.kubeNamespace.value != "" then s.kubeNamespace.value else NamespaceFor(s.dc, Get(next.env, SINK_TYPE));
    var c := next.(deploymentId := cur.deploymentId, chart := s.chart.value, telegraf := s.dc.telegraf,
                   initContainer := s.dc.initContainer, namespace := ns);
    SchemaIgnoresRest(next, c);
    FinishIsGood(c, ReleaseUpdate, output, s);
  }

  // ------------------------------------------------------------ a sample firehose

  const NO_DRIVER_CONF := DriverConf(map[], map[], map[], map[], "", "", "")

  const SAMPLE_KEDA := ZERO_KEDA.(maxReplicas := 2, triggers := map["cpu" := Trigger("cpu", None, AuthRef("", ""))])

  /** A stop time, and an autoscaler that is on. */
  const SAMPLE := Config(false, Some(5), 1, "ns", "f-firehose",
                         map[SINK_TYPE := "LOG", PROTO_CLASS := "p", KAFKA_BROKERS := "b", KAFKA_TOPIC := "t", CONSUMER_ID := "g"],
                         "", UsageSpec("", ""), UsageSpec("", ""), "", "", "", Some(Autoscaler(true, SAMPLE_KEDA)))

  const SAMPLE_PLAN := Planned(SAMPLE, Scheduled([ReleaseUpdate], "", "", 0))

  lemma SampleEnv()
    ensures SchemaValid(SAMPLE) && Get(SAMPLE.env, CONSUMER_ID) == "g"
  {
    assert |SINK_TYPE| == 9 && |PROTO_CLASS| == 24 && |KAFKA_BROKERS| == 20 && |KAFKA_TOPIC| == 18 && |CONSUMER_ID| == 30;
    assert SAMPLE.env[SINK_TYPE] == "LOG";
  }

  lemma SampleIsGood()
    ensures GoodPlan(SAMPLE_PLAN) && Settled(SAMPLE)
  {
    hide SchemaValid, Get;
    SampleEnv();
    assert "cpu" in SAMPLE_KEDA.triggers && SAMPLE_KEDA.triggers["cpu"].kind == "cpu" && |"cpu"| < |KAFKA|;
  }

  /** The sample with its autoscaler off and a kafka trigger without metadata. */
  const BARE := SAMPLE.(autoscaler := Some(Autoscaler(false, ZERO_KEDA.(triggers := map["lag" := Trigger(KAFKA, None, AuthRef("", ""))]))))

  lemma BareIsSettled()
    ensures Settled(BARE)
  {
    hide SchemaValid, Get;
    SampleEnv();
    SchemaIgnoresRest(SAMPLE, BARE);
  }
}
