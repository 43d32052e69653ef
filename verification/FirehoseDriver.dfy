/** The plan functions of modules/firehose/driver_plan.go as they run: on the driver's own copy
    of the resource, one field after another. */
module FirehoseDriver {
  import opened Text
  import opened Resources
  import opened Keda
  import opened FirehoseConfig
  import opened FirehosePlan
  import ConsumerGroup

  /** The resource a plan works on; it is handed back only if planning succeeds. */
  class Expanded {
    var configs: Config
    var state: PlanState

    constructor (configs: Config, state: PlanState)
      ensures this.configs == configs && this.state == state
    {
      this.configs, this.state := configs, state;
    }

    /** Has planning ended as `p` says? */
    ghost predicate Ended(r: Reading<()>, p: Reading<Planned>)
      reads this
    {
      match p
      case Panicked => r == Panicked
      case Rejected(e) => r == Rejected(e)
      case Read(planned) => r == Read(()) && configs == planned.config && state == planned.state
    }

    /** validateHelmReleaseConfigs */
    method Validate(s: Setting) returns (r: Reading<()>)
      ensures r == if s.kubeNamespace.None? then Rejected(ErrInternal) else if s.render.Err? then Rejected(s.render.error) else Read(())
    {
      if s.kubeNamespace.None? {
        return Rejected(ErrInternal);
      } else if s.render.Err? {
        return Rejected(s.render.error);
      }
      r := Read(());
    }

    method PlanCreate(params: Config, o: Owner, s: Setting) returns (r: Reading<()>)
      requires Hashes(o)
      modifies this
      ensures Ended(r, FirehosePlan.PlanCreate(params, o, s))
    {
      hide ConfigRead;
      var read := ReadConfig(params, s.dc, o);
      match read {
        case Panicked => return Panicked;
        case Rejected(e) => return Rejected(e);
        case Read(c) =>
          var conf := c;
          if s.chart.Err? {
            return Rejected(s.chart.error);
          }
          conf := conf.(telegraf := s.dc.telegraf);
          conf := conf.(chart := s.chart.value);
          if s.kubeNamespace.None? {
            return Rejected(ErrInternal);
          }
          if s.kubeNamespace.value != "" {
            conf := conf.(namespace := s.kubeNamespace.value);
          }
          configs := StoredConfig(conf);
          r := Validate(s);
          if !r.Read? {
            return;
          }
          state := Scheduled([ReleaseCreate], "", conf.namespace + "/" + conf.deploymentId, s.now);
      }
    }

    /** The update branch: the new configuration, with what is not the user's to change. */
    method Updated(curConf: Config, params: Config, o: Owner, s: Setting) returns (newConf: Reading<Config>)
      requires Hashes(o)
      ensures newConf.Read? ==> PlanUpdate(curConf, params, o, state.output, s) == Finish(newConf.value, ReleaseUpdate, state.output, s)
      ensures newConf.Rejected? ==> PlanUpdate(curConf, params, o, state.output, s) == Rejected(newConf.error)
      ensures newConf.Panicked? ==> PlanUpdate(curConf, params, o, state.output, s) == Panicked
    {
      hide ConfigRead;
      newConf := ReadConfig(params, s.dc, o);
      if !newConf.Read? {
        return;
      }
      if s.chart.Err? {
        return Rejected(s.chart.error);
      }
      var conf := newConf.value;
      conf := conf.(deploymentId := curConf.deploymentId);
      conf := conf.(chart := s.chart.value);
      conf := conf.(telegraf := s.dc.telegraf);
      conf := conf.(initContainer := s.dc.initContainer);
      var ns := NamespaceFor(s.dc, Get(conf.env, SINK_TYPE));
      if s.kubeNamespace.None? {
        return Rejected(ErrInternal);
      }
      if s.kubeNamespace.value != "" {
        ns := s.kubeNamespace.value;
      }
      conf := conf.(namespace := ns);
      if curConf.namespace != conf.namespace {
        if !curConf.stopped {
          return Rejected(ErrInvalid);
        }
      }
      newConf := Read(conf);
    }

    method PlanChange(request: Request, o: Owner, s: Setting) returns (r: Reading<()>)
      requires Hashes(o) && !request.Reset? && !request.ResetV2?
      modifies this
      ensures Ended(r, PlanAction(old(configs), request, o, old(state).output, s))
    {
      hide ConfigRead, PlanUpdate;
      var read := ReadConfig(configs, s.dc, o);
      if read.Panicked? {
        return Panicked;
      } else if read.Rejected? {
        return Rejected(read.error);
      }
      var curConf := read.value;
      match request {
        case Update(params) =>
          var newConf := Updated(curConf, params, o, s);
          if newConf.Panicked? {
            return Panicked;
          } else if newConf.Rejected? {
            return Rejected(newConf.error);
          }
          curConf := newConf.value;
        case Scale(replicas) =>
          if replicas < 1 {
            return Rejected(ErrInvalid);
          }
          curConf := curConf.(replicas := replicas);
        case Start(stopTime) =>
          curConf := curConf.(stopped := false);
          if stopTime.Some? {
            curConf := curConf.(stopTime := stopTime);
          }
          if curConf.autoscaler.Some? {
            curConf := OnSpec(curConf, Resume(curConf.autoscaler.value.spec));
          }
        case Stop =>
          curConf := curConf.(stopped := true);
          if curConf.autoscaler.Some? {
            curConf := OnSpec(curConf, PauseAt(curConf.autoscaler.value.spec, 0));
          }
        case Upgrade =>
          curConf := curConf.(chart := s.dc.chart);
      }
      configs := StoredConfig(curConf);
      r := Validate(s);
      if r.Read? {
        state := Scheduled([ReleaseUpdate], "", state.output, s.now);
      }
    }

    method PlanReset(offset: string, o: Owner, s: Setting) returns (r: Reading<()>)
      requires Hashes(o)
      modifies this
      ensures Ended(r, PlanAction(old(configs), Reset(offset), o, old(state).output, s))
    {
      hide ConfigRead, UpdateTriggers, ConsumerGroup.Next;
      var read := ReadConfig(configs, s.dc, o);
      if read.Panicked? {
        return Panicked;
      } else if read.Rejected? {
        return Rejected(read.error);
      }
      var curConf := read.value;
      KeysDiffer();
      curConf := curConf.(resetOffset := offset);
      curConf := curConf.(env := curConf.env[AUTO_OFFSET_RESET := offset]);
      var group := ConsumerGroup.Next(Get(curConf.env, CONSUMER_ID));
      if group.None? {
        return Rejected(ErrInternal);
      }
      curConf := curConf.(env := curConf.env[CONSUMER_ID := group.value]);
      if curConf.autoscaler.Some? {
        var triggers := UpdateTriggers(curConf.autoscaler.value.spec.triggers, curConf.env);
        if triggers.None? {
          return Panicked;
        }
        curConf := OnSpec(curConf, curConf.autoscaler.value.spec.(triggers := triggers.value));
      }
      configs := StoredConfig(curConf);
      state := Scheduled([ReleaseStop, ReleaseUpdate], "", state.output, s.now);
      r := Read(());
    }

    method PlanResetV2(offset: string, o: Owner, s: Setting) returns (r: Reading<()>)
      requires Hashes(o)
      modifies this
      ensures Ended(r, PlanAction(old(configs), ResetV2(offset), o, old(state).output, s))
    {
      hide ConfigRead;
      var read := ReadConfig(configs, s.dc, o);
      if read.Panicked? {
        return Panicked;
      } else if read.Rejected? {
        return Rejected(read.error);
      }
      var curConf := read.value.(resetOffset := offset);
      configs := StoredConfig(curConf);
      state := Scheduled([ReleaseStop, KafkaReset, ReleaseUpdate], offset, state.output, s.now);
      r := Read(());
    }

    method Plan(request: Request, o: Owner, s: Setting) returns (r: Reading<()>)
      requires Hashes(o)
      modifies this
      ensures Ended(r, PlanAction(old(configs), request, o, old(state).output, s))
    {
      hide PlanAction;
      match request {
        case Reset(offset) => r := PlanReset(offset, o, s);
        case ResetV2(offset) => r := PlanResetV2(offset, o, s);
        case _ => r := PlanChange(request, o, s);
      }
    }
  }
}
