/** The same settings as mutable, shared maps: what Keda.ReadConfig and its helpers do to the
    heap. A driver's settings are shared by every firehose it plans, so they must come out of
    a reading untouched. */
module KedaHeap {
  import opened Text
  import opened Keda

  /** A map[string]string; None is nil, which can be read but not assigned into. */
  class Metadata {
    var entries: Option<map<string, string>>

    constructor (entries: Option<map<string, string>>)
      ensures this.entries == entries
    {
      this.entries := entries;
    }
  }

  /** A Trigger struct: copying it shares the metadata map. */
  datatype TriggerRef = TriggerRef(kind: string, metadata: Metadata, auth: AuthRef)

  ghost function ViewOf(t: TriggerRef): Trigger
    reads t.metadata
  {
    Trigger(t.kind, t.metadata.entries, t.auth)
  }

  /** A map[string]Trigger, as a value. */
  type Table = map<string, TriggerRef>

  ghost function Maps(t: Table): set<Metadata> {
    set k | k in t :: t[k].metadata
  }

  /** No metadata map is shared between two triggers. */
  ghost predicate Separate(t: Table) {
    forall j, k :: j in t && k in t && j != k ==> t[j].metadata != t[k].metadata
  }

  ghost function View(t: Table): map<string, Trigger>
    reads Maps(t)
  {
    map k | k in t :: ViewOf(t[k])
  }

  /** The map[string]Trigger itself, which structs share. */
  class Triggers {
    var table: Table

    constructor (table: Table)
      ensures this.table == table
    {
      this.table := table;
    }
  }

  method CopyTrigger(v: TriggerRef) returns (copy: TriggerRef)
    ensures fresh(copy.metadata) && ViewOf(copy) == DeepCopied(ViewOf(v))
  {
    var copied := new Metadata(Some(if v.metadata.entries.None? then map[] else v.metadata.entries.value));
    copy := v.(metadata := copied);
  }

  /** deepCopyTriggers: every object of the copy is new. */
  method DeepCopyTriggers(src: Triggers) returns (dst: Table)
    ensures Separate(dst) && dst.Keys == src.table.Keys
    ensures fresh(Maps(dst))
    ensures forall k :: k in dst ==> ViewOf(dst[k]) == DeepCopied(ViewOf(src.table[k]))
  {
    hide DeepCopied;
    dst := map[];
    var todo := src.table.Keys;
    while todo != {}
      invariant todo <= src.table.Keys && dst.Keys == src.table.Keys - todo
      invariant Separate(dst)
      invariant forall k :: k in dst ==> fresh(dst[k].metadata)
      invariant forall k :: k in dst ==> ViewOf(dst[k]) == DeepCopied(ViewOf(src.table[k]))
      decreases |todo|
    {
      var k :| k in todo;
      var copy := CopyTrigger(src.table[k]);
      dst := dst[k := copy];
      todo := todo - {k};
    }
  }

  /** One turn of the merge loop where the driver knows the trigger. */
  method MergeOne(existing: TriggerRef, trigger: TriggerRef) returns (merged: TriggerRef)
    requires existing.metadata.entries.Some? && trigger.metadata != existing.metadata
    modifies existing.metadata
    ensures merged.metadata == existing.metadata
    ensures ViewOf(merged) == MergeTrigger(old(ViewOf(existing)), old(ViewOf(trigger)))
  {
    merged := existing;
    if trigger.metadata.entries.Some? {
      merged.metadata.entries := Some(merged.metadata.entries.value + trigger.metadata.entries.value);
    } else {
      assert merged.metadata.entries.value + map[] == merged.metadata.entries.value;
    }
    if trigger.auth.name != "" {
      merged := merged.(auth := trigger.auth);
    }
    if trigger.kind != "" {
      merged := merged.(kind := trigger.kind);
    }
  }

  lemma HomeAt(copies: Table, user: Table, home: map<string, Metadata>, k: string)
    requires Homes(copies, user, home) && k in user
    ensures k in home && home[k] == if k in copies then copies[k].metadata else user[k].metadata
    ensures k in copies ==> home[k] in Maps(copies)
    ensures k in copies ==> forall j :: j in user ==> user[j].metadata != home[k]
    ensures forall j :: j in home && j != k ==> home[j] != home[k]
  {
  }

  /** The merge with the triggers in `todo` not yet taken from the user. */
  ghost function MergedPart(ours: map<string, Trigger>, theirs: map<string, Trigger>, todo: set<string>): map<string, Trigger> {
    map k | k in ours.Keys + (theirs.Keys - todo) ::
      if k in todo || k !in theirs then ours[k] else if k in ours then MergeTrigger(ours[k], theirs[k]) else theirs[k]
  }

  lemma MergedPartStep(ours: map<string, Trigger>, theirs: map<string, Trigger>, todo: set<string>, k: string)
    requires k in theirs && k in todo
    ensures MergedPart(ours, theirs, todo - {k}) ==
      MergedPart(ours, theirs, todo)[k := if k in ours then MergeTrigger(ours[k], theirs[k]) else theirs[k]]
    ensures k in MergedPart(ours, theirs, todo) <==> k in ours
    ensures k in ours ==> MergedPart(ours, theirs, todo)[k] == ours[k]
  {
    hide MergeTrigger;
  }

  lemma MergedPartNone(ours: map<string, Trigger>, theirs: map<string, Trigger>)
    ensures MergedPart(ours, theirs, theirs.Keys) == ours
  {
  }

  /** Where the metadata of each merged trigger lives: nowhere twice, and apart from what the
      user's copy of a merged trigger points to. */
  ghost predicate Homes(copies: Table, user: Table, home: map<string, Metadata>) {
    && (forall k :: k in copies ==> k in home && home[k] == copies[k].metadata)
    && (forall k :: k in user && k !in copies ==> k in home && home[k] == user[k].metadata)
    && (forall j, k :: j in home && k in home && j != k ==> home[j] != home[k])
    && (forall j, k :: j in user && k in copies ==> user[j].metadata != copies[k].metadata)
  }

  /** The loop invariant of the merge: the triggers in `done` have been taken from the user. */
  ghost predicate Merging(copies: Table, user: Table, home: map<string, Metadata>, now: map<string, Trigger>,
                          theirs: map<string, Trigger>, dst: Table)
    reads Maps(dst), Maps(user)
  {
    && dst.Keys == now.Keys
    && theirs.Keys == user.Keys
    && (forall k :: k in dst ==> k in home && dst[k].metadata == home[k])
    && (forall k :: k in dst ==> ViewOf(dst[k]) == now[k])
    && (forall k :: k in user ==> ViewOf(user[k]) == theirs[k])
  }

  /** A turn of the merge loop where the driver knows the trigger. */
  method MergeKnown(copies: Table, user: Table, ghost home: map<string, Metadata>, ghost now: map<string, Trigger>,
                    ghost theirs: map<string, Trigger>, dst: Table, k: string)
    returns (dst': Table)
    requires Homes(copies, user, home) && Merging(copies, user, home, now, theirs, dst)
    requires k in user && k in dst && k in copies && now[k].metadata.Some?
    modifies copies[k].metadata
    ensures Merging(copies, user, home, now[k := MergeTrigger(now[k], theirs[k])], theirs, dst')
  {
    hide MergeTrigger, Homes;
    HomeAt(copies, user, home, k);
    var one := MergeOne(dst[k], user[k]);
    dst' := dst[k := one];
    assert forall j :: j in dst && j != k ==> dst[j].metadata != home[k] && ViewOf(dst[j]) == old(ViewOf(dst[j]));
  }

  lemma MergeUnknown(copies: Table, user: Table, home: map<string, Metadata>, now: map<string, Trigger>,
                     theirs: map<string, Trigger>, dst: Table, k: string)
    requires Homes(copies, user, home) && Merging(copies, user, home, now, theirs, dst)
    requires k in user && k !in copies
    ensures Merging(copies, user, home, now[k := theirs[k]], theirs, dst[k := user[k]])
  {
  }

  /** One turn of the merge loop. */
  method MergeTurn(copies: Table, user: Table, ghost home: map<string, Metadata>, ghost ours: map<string, Trigger>,
                   ghost now: map<string, Trigger>, ghost theirs: map<string, Trigger>, dst: Table, k: string)
    returns (dst': Table)
    requires Homes(copies, user, home) && Merging(copies, user, home, now, theirs, dst)
    requires k in user && ours.Keys == copies.Keys
    requires if k in ours then k in now && now[k] == ours[k] && ours[k].metadata.Some? else k !in now
    modifies Maps(copies)
    ensures Merging(copies, user, home, now[k := if k in ours then MergeTrigger(ours[k], theirs[k]) else theirs[k]], theirs, dst')
  {
    hide MergeTrigger, ViewOf;
    if k in dst {
      HomeAt(copies, user, home, k);
      dst' := MergeKnown(copies, user, home, now, theirs, dst, k);
    } else {
      MergeUnknown(copies, user, home, now, theirs, dst, k);
      dst' := dst[k := user[k]];
    }
  }

  /** The merge loop of ReadConfig: triggers of `user` go into the copies in `copies`, or in
      whole where there is no such copy. */
  method MergeTriggers(copies: Table, user: Table, ghost home: map<string, Metadata>,
                       ghost ours: map<string, Trigger>, ghost theirs: map<string, Trigger>) returns (dst: Table)
    requires Homes(copies, user, home) && Merging(copies, user, home, ours, theirs, copies)
    requires forall k :: k in ours ==> ours[k].metadata.Some?
    modifies Maps(copies)
    ensures Merging(copies, user, home, MergedPart(ours, theirs, {}), theirs, dst)
  {
    MergedPartNone(ours, theirs);
    MergingKeys(copies, user, home, ours, theirs, copies);
    hide *;
    dst := copies;
    var todo := user.Keys;
    while todo != {}
      invariant todo <= user.Keys
      invariant Merging(copies, user, home, MergedPart(ours, theirs, todo), theirs, dst)
      decreases |todo|
    {
      var k :| k in todo;
      MergedPartStep(ours, theirs, todo, k);
      dst := MergeTurn(copies, user, home, ours, MergedPart(ours, theirs, todo), theirs, dst, k);
      todo := todo - {k};
    }
  }

  lemma MergingKeys(copies: Table, user: Table, home: map<string, Metadata>, now: map<string, Trigger>,
                    theirs: map<string, Trigger>, dst: Table)
    requires Merging(copies, user, home, now, theirs, dst)
    ensures dst.Keys == now.Keys && theirs.Keys == user.Keys
    ensures forall k :: k in dst ==> k in home && dst[k].metadata == home[k] && ViewOf(dst[k]) == now[k]
  {
  }

  /** The triggers of a merge share nothing with the driver's, and nothing with each other. */
  lemma MergedSeparate(copies: Table, user: Table, base: Table, home: map<string, Metadata>, dst: Table)
    requires Homes(copies, user, home) && home.Keys == copies.Keys + user.Keys
    requires Maps(copies) !! Maps(base) && Maps(user) !! Maps(base)
    requires forall k :: k in dst ==> k in home && dst[k].metadata == home[k]
    ensures Separate(dst) && Maps(dst) !! Maps(base) && Maps(dst) <= Maps(copies) + Maps(user)
  {
    assert forall k :: k in copies ==> copies[k].metadata in Maps(copies);
    assert forall k :: k in user ==> user[k].metadata in Maps(user);
  }

  lemma HomesOf(copies: Table, user: Table, home: map<string, Metadata>)
    requires Separate(copies) && Separate(user) && Maps(copies) !! Maps(user)
    requires home == map k | k in copies.Keys + user.Keys :: if k in copies then copies[k].metadata else user[k].metadata
    ensures Homes(copies, user, home)
  {
    assert forall k :: k in copies ==> copies[k].metadata in Maps(copies);
    assert forall k :: k in user ==> user[k].metadata in Maps(user);
  }

  /** m[name] = env[variable], if the variable is set. */
  method Assign(m: Metadata, name: string, variable: string, env: Env)
    requires m.entries.Some?
    modifies m
    ensures m.entries == Some(old(m.entries).value + Entry(name, variable, env))
  {
    if variable in env {
      assert m.entries.value[name := env[variable]] == m.entries.value + map[name := env[variable]];
      m.entries := Some(m.entries.value[name := env[variable]]);
    } else {
      assert m.entries.value + map[] == m.entries.value;
    }
  }

  /** The entries one kafka trigger takes from the environment. */
  method Stamp(m: Metadata, env: Env)
    requires m.entries.Some?
    modifies m
    ensures m.entries == Some(old(m.entries).value + FromEnv(env))
  {
    hide Entry;
    ghost var e := m.entries.value;
    Assign(m, "consumerGroup", CONSUMER_ID, env);
    Assign(m, "topic", KAFKA_TOPIC, env);
    Assign(m, "bootstrapServers", KAFKA_BROKERS, env);
    Associates(e, Entry("consumerGroup", CONSUMER_ID, env), Entry("topic", KAFKA_TOPIC, env), Entry("bootstrapServers", KAFKA_BROKERS, env));
  }

  lemma Associates(e: Env, a: Env, b: Env, c: Env)
    ensures ((e + a) + b) + c == e + (a + b + c)
  {
  }

  /** The switch of updateTriggersMetadata on one trigger; false is its panic. */
  method StampTrigger(t: TriggerRef, env: Env) returns (ok: bool)
    modifies t.metadata
    ensures ok <==> !(t.kind == KAFKA && old(t.metadata.entries).None? && FromEnv(env) != map[])
    ensures ok ==> ViewOf(t) == Stamped(old(ViewOf(t)), env)
  {
    hide FromEnv;
    ok := true;
    if t.kind == KAFKA {
      if t.metadata.entries.Some? {
        Stamp(t.metadata, env);
      } else {
        ok := FromEnv(env) == map[];
      }
    }
  }

  /** The loop invariant of updateTriggersMetadata: all but `todo` are stamped. */
  ghost predicate Stamping(t: Table, was: map<string, Trigger>, env: Env, todo: set<string>)
    reads Maps(t)
  {
    && t.Keys == was.Keys && todo <= t.Keys
    && forall k :: k in t ==>
         if k in todo then ViewOf(t[k]) == was[k]
         else ViewOf(t[k]) == Stamped(was[k], env) && !(was[k].kind == KAFKA && was[k].metadata.None? && FromEnv(env) != map[])
  }

  /** One turn of the loop. */
  method StampNext(t: Table, ghost was: map<string, Trigger>, env: Env, ghost todo: set<string>, k: string) returns (ok: bool)
    requires Separate(t) && Stamping(t, was, env, todo) && k in t && k in todo
    modifies t[k].metadata
    ensures ok ==> Stamping(t, was, env, todo - {k})
    ensures !ok ==> StampPanics(was, env)
  {
    hide FromEnv, Stamped;
    ok := StampTrigger(t[k], env);
    assert forall j :: j in t && j != k ==> t[j].metadata != t[k].metadata && ViewOf(t[j]) == old(ViewOf(t[j]));
    assert !ok ==> was[k].kind == KAFKA && was[k].metadata.None?;
  }

  lemma StampingStarts(t: Table, env: Env)
    ensures Stamping(t, View(t), env, t.Keys) && Maps(t) == set k | k in t :: t[k].metadata
  {
    hide FromEnv, Stamped;
  }

  lemma StampingEnds(t: Table, was: map<string, Trigger>, env: Env)
    requires Stamping(t, was, env, {})
    ensures View(t) == StampedAll(was, env) && !StampPanics(was, env)
  {
    hide FromEnv, Stamped;
  }

  lemma StampingKeys(t: Table, was: map<string, Trigger>, env: Env, todo: set<string>)
    requires Stamping(t, was, env, todo)
    ensures todo <= t.Keys && forall k :: k in t ==> t[k].metadata in Maps(t)
  {
  }

  /** updateTriggersMetadata, in place; false is its panic. */
  method UpdateTriggersMetadata(t: Table, env: Env) returns (ok: bool)
    requires Separate(t)
    modifies Maps(t)
    ensures ok <==> !StampPanics(old(View(t)), env)
    ensures ok ==> View(t) == StampedAll(old(View(t)), env)
  {
    hide *;
    ghost var was := View(t);
    var todo := t.Keys;
    StampingStarts(t, env);
    while todo != {}
      invariant Stamping(t, was, env, todo)
      decreases |todo|
    {
      var k :| k in todo;
      StampingKeys(t, was, env, todo);
      var stamped := StampNext(t, was, env, todo, k);
      if !stamped {
        return false;
      }
      todo := todo - {k};
    }
    StampingEnds(t, was, env);
    ok := true;
  }

  lemma MergedPartAll(base: map<string, Trigger>, user: map<string, Trigger>, copies: map<string, Trigger>)
    requires copies.Keys == base.Keys && forall k :: k in copies ==> copies[k] == DeepCopied(base[k])
    ensures MergedPart(copies, user, {}) == Merged(base, user)
  {
  }

  /** The driver's triggers copied, and the user's merged into the copies. */
  method MergeInto(base: Triggers, user: Table) returns (dst: Table)
    requires Separate(user) && Maps(user) !! Maps(base.table)
    modifies Maps(user)
    ensures Separate(dst) && Maps(dst) !! Maps(base.table)
    ensures forall m :: m in Maps(dst) ==> m in Maps(user) || fresh(m)
    ensures View(dst) == Merged(old(View(base.table)), old(View(user)))
  {
    ghost var defaults, theirs := View(base.table), View(user);
    hide *;
    var copies, home := CopiesFor(base, user);
    ghost var ours := View(copies);
    MergedPartAll(defaults, theirs, ours);
    dst := MergeTriggers(copies, user, home, ours, theirs);
    MergingKeys(copies, user, home, Merged(defaults, theirs), theirs, dst);
    MergedSeparate(copies, user, base.table, home, dst);
    ViewIs(dst, Merged(defaults, theirs));
  }

  /** The trigger half of ReadConfig. */
  method MergeAndStamp(base: Triggers, user: Table, env: Env) returns (ok: bool, dst: Table)
    requires Separate(user) && Maps(user) !! Maps(base.table)
    modifies Maps(user)
    ensures Separate(dst) && Maps(dst) !! Maps(base.table)
    ensures ok <==> !StampPanics(Merged(old(View(base.table)), old(View(user))), env)
    ensures ok ==> View(dst) == StampedAll(Merged(old(View(base.table)), old(View(user))), env)
  {
    hide *;
    dst := MergeInto(base, user);
    ok := UpdateTriggersMetadata(dst, env);
  }

  /** The copies a merge starts from, and what the merge needs to know of them. */
  method CopiesFor(base: Triggers, user: Table) returns (copies: Table, ghost home: map<string, Metadata>)
    requires Separate(user) && Maps(user) !! Maps(base.table)
    ensures fresh(Maps(copies)) && Maps(copies) !! Maps(base.table)
    ensures Homes(copies, user, home) && home.Keys == copies.Keys + user.Keys
    ensures View(copies).Keys == View(base.table).Keys
    ensures forall k :: k in View(copies) ==> View(copies)[k].metadata.Some? && View(copies)[k] == DeepCopied(old(View(base.table))[k])
    ensures Merging(copies, user, home, View(copies), old(View(user)), copies)
  {
    copies := DeepCopyTriggers(base);
    home := map k | k in copies.Keys + user.Keys :: if k in copies then copies[k].metadata else user[k].metadata;
    HomesOf(copies, user, home);
  }

  lemma ViewIs(t: Table, m: map<string, Trigger>)
    requires t.Keys == m.Keys && forall k :: k in t ==> ViewOf(t[k]) == m[k]
    ensures View(t) == m
  {
  }

  /** A Keda struct: copying it shares the trigger map. */
  datatype KedaRef = KedaRef(settings: Keda, triggers: Triggers)

  ghost function KedaView(k: KedaRef): Keda
    reads k.triggers, Maps(k.triggers.table)
  {
    k.settings.(triggers := View(k.triggers.table))
  }

  /** The receiver of ReadConfig. */
  class KedaSpec {
    var keda: KedaRef

    constructor (keda: KedaRef)
      ensures this.keda == keda
    {
      this.keda := keda;
    }

    /** Reads this firehose's settings over the driver's. Nothing of the driver's is written,
        and nothing of it is reachable from the result, so no later update in place can
        reach it either. */
    method ReadConfig(base: KedaRef, env: Env) returns (ok: bool)
      requires Separate(keda.triggers.table) && keda.triggers != base.triggers
      requires Maps(keda.triggers.table) !! Maps(base.triggers.table)
      modifies this, Maps(keda.triggers.table)
      ensures ok <==> ReadKeda(old(KedaView(keda)), old(KedaView(base)), env).Some?
      ensures ok ==> KedaView(keda) == ReadKeda(old(KedaView(keda)), old(KedaView(base)), env).value
      ensures !ok ==> keda == old(keda)
      ensures base.triggers.table == old(base.triggers.table) && KedaView(base) == old(KedaView(base))
      ensures ok ==> keda.triggers != base.triggers && Separate(keda.triggers.table)
      ensures ok ==> Maps(keda.triggers.table) !! Maps(base.triggers.table)
    {
      hide Merged, StampedAll, StampPanics, ReadKeda, Separate, Overlaid;
      var user := keda;
      ghost var defaults, theirs := View(base.triggers.table), View(user.triggers.table);
      assert KedaView(base) == base.settings.(triggers := defaults) && KedaView(keda) == user.settings.(triggers := theirs);
      Assembled(user.settings, base.settings, theirs, defaults, env);
      var dst: Table;
      ok, dst := MergeAndStamp(base.triggers, user.triggers.table, env);
      if !ok {
        return;
      }
      var merged := new Triggers(dst);
      keda := KedaRef(Overlaid(user.settings, base.settings, map[]), merged);
    }
  }

  lemma Assembled(user: Keda, base: Keda, theirs: map<string, Trigger>, defaults: map<string, Trigger>, env: Env)
    ensures ReadKeda(user.(triggers := theirs), base.(triggers := defaults), env) ==
      if StampPanics(Merged(defaults, theirs), env) then None
      else Some(Overlaid(user, base, map[]).(triggers := StampedAll(Merged(defaults, theirs), env)))
  {
    hide Merged, StampedAll, StampPanics;
  }
}
