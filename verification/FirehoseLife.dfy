/** What stays with a firehose through any sequence of actions, each planned under whatever
    driver configuration holds at the time (serial: one action after another). */
module FirehoseLife {
  import opened Text
  import opened Resources
  import opened Keda
  import opened FirehoseConfig
  import opened FirehosePlan
  import ConsumerGroup

  datatype Event = Event(request: Request, output: Blob, setting: Setting)

  function Plan(stored: Config, e: Event, o: Owner): Reading<Planned>
    requires Hashes(o)
  {
    PlanAction(stored, e.request, o, e.output, e.setting)
  }

  /** The stored configuration after an action; a refused one changes nothing. */
  function After(stored: Config, e: Event, o: Owner): Config
    requires Hashes(o)
  {
    var p := Plan(stored, e, o);
    if p.Read? then p.value.config else stored
  }

  /** The stored configuration after a sequence of actions. */
  function Life(first: Config, events: seq<Event>, o: Owner): Config
    requires Hashes(o)
  {
    if events == [] then first else After(Life(first, events[..|events| - 1], o), events[|events| - 1], o)
  }

  function Group(c: Config): string { Get(c.env, CONSUMER_ID) }

  lemma {:induction false} LifeIsSettled(first: Config, events: seq<Event>, o: Owner)
    requires Hashes(o) && Settled(first)
    ensures Settled(Life(first, events, o))
  {
    hide Settled, PlanAction;
    if events != [] {
      var before, e := Life(first, events[..|events| - 1], o), events[|events| - 1];
      LifeIsSettled(first, events[..|events| - 1], o);
      if Plan(before, e, o).Read? {
        ActionIsGood(before, e.request, o, e.output, e.setting);
      }
    }
  }

  /** The namespace a configuration is read with. */
  function ReadNamespace(c: Config, dc: DriverConf): string {
    if c.namespace != "" then c.namespace else NamespaceFor(dc, Get(c.env, SINK_TYPE))
  }

  /** One action keeps the release name; only an update of a stopped firehose moves it to
      another namespace. */
  lemma ActionKeepsIdentity(stored: Config, e: Event, o: Owner)
    requires Hashes(o) && Settled(stored) && Plan(stored, e, o).Read?
    ensures After(stored, e, o).deploymentId == stored.deploymentId
    ensures After(stored, e, o).namespace != ReadNamespace(stored, e.setting.dc) ==> e.request.Update? && stored.stopped
  {
    hide ConfigRead, Settled, NamespaceFor, UpdateTriggers, ConsumerGroup.Next;
    SettledReads(stored, e.setting.dc, o);
    ReadNamespaceIs(stored, e.setting.dc, o);
  }

  lemma ReadNamespaceIs(stored: Config, dc: DriverConf, o: Owner)
    requires Hashes(o) && Settled(stored) && ConfigRead(stored, dc, o).Read?
    ensures ConfigRead(stored, dc, o).value.namespace == ReadNamespace(stored, dc)
  {
    hide GeneratedId, ReadKeda, BaseFor, Validates;
    KeysDiffer();
  }

  /** The release name given at creation is the release name for life. */
  lemma {:induction false} ReleaseNameIsForLife(first: Config, events: seq<Event>, o: Owner)
    requires Hashes(o) && Settled(first)
    ensures Life(first, events, o).deploymentId == first.deploymentId
  {
    hide Settled, PlanAction;
    if events != [] {
      var before, e := Life(first, events[..|events| - 1], o), events[|events| - 1];
      ReleaseNameIsForLife(first, events[..|events| - 1], o);
      LifeIsSettled(first, events[..|events| - 1], o);
      if Plan(before, e, o).Read? {
        ActionKeepsIdentity(before, e, o);
      }
    }
  }

  /** An update of a stopped firehose, the only action that may move it. */
  predicate MayMove(stored: Config, e: Event) { e.request.Update? && stored.stopped }

  /** A firehose with a namespace stays in it for as long as it is not updated while stopped,
      even as the driver's namespaces change. */
  lemma {:induction false} NamespaceSticks(first: Config, events: seq<Event>, o: Owner)
    requires Hashes(o) && Settled(first) && first.namespace != ""
    requires forall i :: 0 <= i < |events| ==> !MayMove(Life(first, events[..i], o), events[i])
    ensures Life(first, events, o).namespace == first.namespace
  {
    hide Settled, PlanAction;
    if events != [] {
      var n := |events| - 1;
      var init := events[..n];
      forall i | 0 <= i < |init| ensures !MayMove(Life(first, init[..i], o), init[i]) {
        assert init[..i] == events[..i] && init[i] == events[i];
      }
      NamespaceSticks(first, init, o);
      LifeIsSettled(first, init, o);
      assert !MayMove(Life(first, init, o), events[n]);
      if Plan(Life(first, init, o), events[n], o).Read? {
        ActionKeepsIdentity(Life(first, init, o), events[n], o);
      }
    }
  }

  /** Where everything else is in order, an update is refused exactly when it would move a
      running firehose. */
  lemma UpdateRefusedIff(stored: Config, params: Config, output: Blob, s: Setting, o: Owner)
    requires Hashes(o) && Settled(stored) && ConfigRead(params, s.dc, o).Read?
    requires s.chart.Ok? && s.kubeNamespace.Some? && s.render.Ok?
    ensures var target := if s.kubeNamespace.value != "" then s.kubeNamespace.value
                          else NamespaceFor(s.dc, Get(ConfigRead(params, s.dc, o).value.env, SINK_TYPE));
      && (PlanAction(stored, Update(params), o, output, s).Rejected? <==> target != ReadNamespace(stored, s.dc) && !stored.stopped)
      && !PlanAction(stored, Update(params), o, output, s).Panicked?
      && (PlanAction(stored, Update(params), o, output, s).Read? ==>
            PlanAction(stored, Update(params), o, output, s).value.config.namespace == target)
  {
    hide ConfigRead, Settled, NamespaceFor;
    SettledReads(stored, s.dc, o);
    ReadNamespaceIs(stored, s.dc, o);
  }

  // ------------------------------------------------------------ consumer groups

  predicate AcceptedReset(stored: Config, e: Event, o: Owner)
    requires Hashes(o)
  {
    e.request.Reset? && Plan(stored, e, o).Read?
  }

  /** Apart from updates, only a reset changes the group, and it takes the next one. */
  lemma ActionKeepsGroup(stored: Config, e: Event, o: Owner)
    requires Hashes(o) && Settled(stored) && Plan(stored, e, o).Read? && !e.request.Update?
    ensures e.request.Reset? ==> ConsumerGroup.Next(Group(stored)) == Some(Group(After(stored, e, o)))
    ensures !e.request.Reset? ==> Group(After(stored, e, o)) == Group(stored)
  {
    hide ConfigRead, NamespaceFor, UpdateTriggers, ConsumerGroup.Next, SchemaValid;
    SettledReads(stored, e.setting.dc, o);
    var cur := ConfigRead(stored, e.setting.dc, o).value;
    assert Group(cur) == Group(stored);
    if e.request.Reset? {
      KeysDiffer();
    }
  }

  function Resets(first: Config, events: seq<Event>, o: Owner): nat
    requires Hashes(o)
  {
    if events == [] then 0
    else
      var before := Life(first, events[..|events| - 1], o);
      Resets(first, events[..|events| - 1], o) + (if AcceptedReset(before, events[|events| - 1], o) then 1 else 0)
  }

  predicate NoUpdates(events: seq<Event>) { forall i :: 0 <= i < |events| ==> !events[i].request.Update? }

  lemma {:induction false} GroupCountsResets(first: Config, events: seq<Event>, o: Owner)
    requires Hashes(o) && Settled(first) && NoUpdates(events)
    ensures ConsumerGroup.After(Group(first), Resets(first, events, o)) == Some(Group(Life(first, events, o)))
  {
    hide Settled, PlanAction, ConsumerGroup.Next, Group;
    if events != [] {
      var n := |events| - 1;
      var before := Life(first, events[..n], o);
      GroupCountsResets(first, events[..n], o);
      LifeIsSettled(first, events[..n], o);
      if Plan(before, events[n], o).Read? {
        ActionKeepsGroup(before, events[n], o);
      }
    }
  }

  /** Between updates, a group given by a reset is one the firehose never had: whatever else
      happens, two moments with a reset between them have different groups. */
  lemma GroupsStayFresh(first: Config, events: seq<Event>, i: nat, o: Owner)
    requires Hashes(o) && Settled(first) && NoUpdates(events) && i <= |events|
    requires Resets(first, events[..i], o) < Resets(first, events, o)
    ensures Group(Life(first, events[..i], o)) != Group(Life(first, events, o))
  {
    hide Life, Resets, Settled, Group, ConsumerGroup.After;
    GroupCountsResets(first, events, o);
    GroupCountsResets(first, events[..i], o);
    ConsumerGroup.ResetsNeverRepeat(Group(first), Resets(first, events[..i], o), Resets(first, events, o));
  }

  /** The group an update asks for, by name or by default. */
  function AskedGroup(params: Config, dc: DriverConf, o: Owner): string
    requires Hashes(o)
  {
    if Get(dc.env + params.env, CONSUMER_ID) != "" then Get(dc.env + params.env, CONSUMER_ID) else IdOf(params, o) + "-1"
  }

  lemma ReadGroup(params: Config, dc: DriverConf, o: Owner)
    requires Hashes(o) && ConfigRead(params, dc, o).Read?
    ensures Group(ConfigRead(params, dc, o).value) == AskedGroup(params, dc, o)
  {
    hide GeneratedId, ReadKeda, BaseFor, Validates, SchemaValid;
  }

  /** An update forgets the group of the firehose: it stays only if the parameters ask for it. */
  lemma UpdateKeepsGroupIff(stored: Config, params: Config, output: Blob, s: Setting, o: Owner)
    requires Hashes(o) && Settled(stored)
    ensures PlanAction(stored, Update(params), o, output, s).Read? ==>
      (Group(PlanAction(stored, Update(params), o, output, s).value.config) == Group(stored)
       <==> Group(stored) == AskedGroup(params, s.dc, o))
  {
    hide ConfigRead, Settled, NamespaceFor, AskedGroup;
    if PlanAction(stored, Update(params), o, output, s).Read? {
      ReadGroup(params, s.dc, o);
    }
  }

  /** So freshness ends at an update: one whose parameters ask for the group a firehose had
      before a reset, as those of its creation do, brings that group back. */
  lemma UpdateRevivesGroup(params: Config, c0: Config, reset: Event, update: Event, s: Setting, o: Owner)
    requires Hashes(o) && Settled(c0) && update.request == Update(params)
    ensures Group(c0) == AskedGroup(params, update.setting.dc, o) && AcceptedReset(c0, reset, o)
            && Plan(After(c0, reset, o), update, o).Read? ==>
      var c1 := After(c0, reset, o);
      Group(c1) != Group(c0) && Group(After(c1, update, o)) == Group(c0)
  {
    hide PlanAction, Settled, AskedGroup, ConsumerGroup.Next, Group;
    var c1 := After(c0, reset, o);
    if AcceptedReset(c0, reset, o) && Plan(c1, update, o).Read? {
      ActionKeepsGroup(c0, reset, o);
      assert ConsumerGroup.After(Group(c0), 1) == Some(Group(c1)) by {
        assert ConsumerGroup.After(Group(c0), 0) == Some(Group(c0));
      }
      ConsumerGroup.ResetsNeverRepeat(Group(c0), 0, 1);
      UpdatedGroup(c1, params, update, o);
    }
  }

  /** A creation gives the group its parameters ask for, by name or by default. */
  lemma CreatedGroup(params: Config, o: Owner, s: Setting)
    requires Hashes(o) && PlanCreate(params, o, s).Read?
    ensures Group(PlanCreate(params, o, s).value.config) == AskedGroup(params, s.dc, o)
  {
    hide ConfigRead, AskedGroup;
    ReadGroup(params, s.dc, o);
  }

  lemma UpdatedGroup(stored: Config, params: Config, e: Event, o: Owner)
    requires Hashes(o) && e.request == Update(params) && Plan(stored, e, o).Read?
    ensures Group(After(stored, e, o)) == AskedGroup(params, e.setting.dc, o)
  {
    hide ConfigRead, NamespaceFor, AskedGroup;
    ReadGroup(params, e.setting.dc, o);
  }

  /** A reset panics exactly when the stored autoscaler, necessarily switched off, has a kafka
      trigger without metadata; otherwise it is accepted. */
  lemma ResetPanicsIff(stored: Config, offset: string, output: Blob, s: Setting, o: Owner)
    requires Hashes(o) && Settled(stored) && ConsumerGroup.Next(Group(stored)).Some?
    ensures PlanAction(stored, Reset(offset), o, output, s).Panicked? <==>
      && stored.autoscaler.Some? && !stored.autoscaler.value.enabled
      && exists k :: k in stored.autoscaler.value.spec.triggers && stored.autoscaler.value.spec.triggers[k].kind == KAFKA
                       && stored.autoscaler.value.spec.triggers[k].metadata.None?
    ensures PlanAction(stored, Reset(offset), o, output, s).Read? <==> !PlanAction(stored, Reset(offset), o, output, s).Panicked?
  {
    hide SchemaValid, NamespaceFor, GeneratedId, ConsumerGroup.Next, FromEnv, Validates, ReadKeda, BaseFor, WithReset;
    SettledReads(stored, s.dc, o);
    ReadIsSettled(stored, s.dc, o);
    var cur := ConfigRead(stored, s.dc, o).value;
    var group := ConsumerGroup.Next(Group(cur)).value;
    NextGroupNonEmpty(Group(cur));
    ResetEnv(cur, offset, group);
    EnvStamps(WithReset(cur.env, offset, group));
    if cur.autoscaler.Some? && !cur.autoscaler.value.enabled {
      assert cur.autoscaler == stored.autoscaler;
    }
  }

  // ------------------------------------------------------------ at inputs

  const SAMPLE_SETTING := Setting(NO_DRIVER_CONF, Some("ns"), Ok(""), Ok(()), 0)

  lemma SampleGroup()
    ensures Group(SAMPLE) == "g" && Group(BARE) == "g" && ConsumerGroup.Next("g") == Some("g-1")
  {
    SampleEnv();
    assert "g"[..0] == "" && LastIndex("g", '-') == -1;
    assert ConsumerGroup.Submatch("g").None?;
    assert "g" + "-1" == "g-1";
  }

  /** A firehose whose reset panics. */
  lemma BareResetPanics(o: Owner, output: Blob, s: Setting)
    requires Hashes(o)
    ensures Settled(BARE) && PlanAction(BARE, Reset("earliest"), o, output, s).Panicked?
  {
    hide PlanAction, Settled, ConsumerGroup.Next, Group;
    BareIsSettled();
    SampleGroup();
    ResetPanicsIff(BARE, "earliest", output, s, o);
    assert "lag" in BARE.autoscaler.value.spec.triggers;
  }

  /** A firehose whose group comes back: reset, then updated with its own parameters. */
  lemma SampleRevivesGroup(o: Owner)
    requires Hashes(o)
    ensures var reset, update := Event(Reset("earliest"), "", SAMPLE_SETTING), Event(Update(SAMPLE), "", SAMPLE_SETTING);
      && AcceptedReset(SAMPLE, reset, o)
      && Plan(After(SAMPLE, reset, o), update, o).Read?
      && Group(After(SAMPLE, reset, o)) != Group(SAMPLE)
      && Group(After(After(SAMPLE, reset, o), update, o)) == Group(SAMPLE)
  {
    hide PlanAction, Settled, ConsumerGroup.Next, Group, AskedGroup, NamespaceFor, ConfigRead;
    var reset, update := Event(Reset("earliest"), "", SAMPLE_SETTING), Event(Update(SAMPLE), "", SAMPLE_SETTING);
    SampleIsGood();
    SampleGroup();
    ResetPanicsIff(SAMPLE, "earliest", "", SAMPLE_SETTING, o);
    var c1 := After(SAMPLE, reset, o);
    ActionKeepsIdentity(SAMPLE, reset, o);
    LifeStaysSettled(SAMPLE, reset, o);
    SettledReads(SAMPLE, NO_DRIVER_CONF, o);
    UpdateRefusedIff(c1, SAMPLE, "", SAMPLE_SETTING, o);
    SampleAsks(o);
    UpdateRevivesGroup(SAMPLE, SAMPLE, reset, update, SAMPLE_SETTING, o);
  }

  lemma SampleAsks(o: Owner)
    requires Hashes(o)
    ensures AskedGroup(SAMPLE, NO_DRIVER_CONF, o) == Group(SAMPLE)
  {
    SampleEnv();
    assert NO_DRIVER_CONF.env + SAMPLE.env == SAMPLE.env;
  }

  lemma LifeStaysSettled(stored: Config, e: Event, o: Owner)
    requires Hashes(o) && Settled(stored)
    ensures Settled(After(stored, e, o))
  {
    hide Settled, PlanAction;
    if Plan(stored, e, o).Read? {
      ActionIsGood(stored, e.request, o, e.output, e.setting);
    }
  }
}
