/** The effects of the cache migration command one by one, and how its runs end. */
module MigrateCacheOutcomes {
  import opened Wrappers
  import opened MigrateCache

  // ---- what may happen ----

  /** There is a schema to migrate that this binary knows. */
  predicate Migratable(b: Binary, schema: nat) { b.compatible(schema) && schema > 1 && schema < b.target }

  /** The recovery intent is written first, with what was installed and running then. */
  predicate Intends(b: Binary, w: World, o: Oracle, was: World, now: World) {
    && o.plan && Migratable(b, w.schema) && (w.installed || w.running || o.alive) && was == w && w.intent == None
    && now == was.(intent := Some(Intent(b.target, w.installed, w.running, false, false)))
  }

  /** An installed coordinator that runs or is alive is stopped, if there is something to migrate or to recover. */
  predicate Stops(b: Binary, w: World, o: Oracle, was: World, now: World) {
    && was.installed && (w.running || o.alive) && o.quiesce != Refused && (Migratable(b, w.schema) || was.intent != None)
    && was.schema == w.schema && now == was.(running := false, owed := was.owed || was.running)
  }

  /** The schema moves to the binary's, while no coordinator runs. */
  predicate Commits(b: Binary, w: World, o: Oracle, was: World, now: World) {
    o.migrate == Committed && Migratable(b, w.schema) && was.schema == w.schema && !was.running && now == was.(schema := b.target, verified := true)
  }

  /** What the migration reported goes into the intent. */
  predicate Records(b: Binary, w: World, o: Oracle, was: World, now: World) {
    && o.record && o.migrate != Failed && Migratable(b, w.schema) && was.intent != None
    && (o.migrate == Committed ==> was.schema == b.target && was.verified)
    && now == was.(intent := Some(Intent(was.intent.value.target, was.intent.value.installed, was.intent.value.wasRunning,
                                         o.migrate == Committed, o.migrate == Committed)))
  }

  /** A failed migration starts a coordinator again that ran before, and gives the intent up. */
  predicate StartsAgain(o: Oracle, was: World, now: World) {
    && o.migrate == Failed && o.restart && was.intent != None && was.intent.value.installed && was.intent.value.wasRunning
    && now == was.(running := was.installed, owed := was.owed && !was.installed)
  }

  predicate GivesUp(o: Oracle, was: World, now: World) {
    && o.migrate == Failed && o.abandon && was.intent != None
    && (was.intent.value.installed && was.intent.value.wasRunning ==> o.restart && was.running == was.installed)
    && now == was.(intent := None)
  }

  /** The service of the intent is installed again, and then started. */
  predicate Installs(o: Oracle, was: World, now: World) {
    o.install && was.intent != None && was.intent.value.installed && now == was.(installed := true)
  }

  predicate Starts(o: Oracle, was: World, now: World) {
    && o.install && o.note && o.start == Healthy && was.intent != None && was.intent.value.installed && was.installed
    && now == was.(running := true, owed := false)
  }

  /** A receipt is written from an intent with evidence, once the identity holds; a service to be restored runs by then. */
  predicate Certifies(o: Oracle, was: World, now: World) {
    && o.identity && o.receipt && was.intent != None && was.intent.value.backupVerified && was.intent.value.identityPreserved
    && (was.intent.value.installed ==> was.installed && was.running && !was.owed)
    && now == was.(receipt := Some(Receipt(was.intent.value.target, true, true)), receipted := true)
  }

  /** Only then is the intent cleared. */
  predicate Clears(o: Oracle, was: World, now: World) {
    o.clear && was.intent != None && was.receipt == Some(Receipt(was.intent.value.target, true, true)) && now == was.(intent := None)
  }

  predicate Effect(b: Binary, w: World, o: Oracle, was: World, now: World) {
    || Intends(b, w, o, was, now) || Stops(b, w, o, was, now) || Commits(b, w, o, was, now) || Records(b, w, o, was, now)
    || StartsAgain(o, was, now) || GivesUp(o, was, now) || Installs(o, was, now) || Starts(o, was, now)
    || Certifies(o, was, now) || Clears(o, was, now)
  }

  function Before(w: World, trace: seq<World>, i: nat): World
    requires i < |trace|
  {
    if i == 0 then w else trace[i - 1]
  }

  ghost predicate AllEffects(b: Binary, w: World, o: Oracle, trace: seq<World>) {
    forall i | 0 <= i < |trace| :: Effect(b, w, o, Before(w, trace, i), trace[i])
  }

  /** The run has got this far with effects only, and a run that does something was confirmed. */
  ghost predicate Sofar(b: Binary, w: World, o: Oracle, p: Progress) {
    AllEffects(b, w, o, p.trace) && (p.trace != [] ==> o.confirm) && Last(p, w).schema == w.schema
  }

  lemma Earlier(w: World, p: Progress, now: World, i: nat)
    requires i <= |p.trace|
    ensures var trace := Did(p, now).trace;
            && |trace| == |p.trace| + 1
            && (if i < |p.trace| then Before(w, trace, i) == Before(w, p.trace, i) && trace[i] == p.trace[i]
                else Before(w, trace, i) == Last(p, w) && trace[i] == now)
  {
  }

  lemma OneMore(b: Binary, w: World, o: Oracle, p: Progress, now: World)
    requires AllEffects(b, w, o, p.trace) && Effect(b, w, o, Last(p, w), now)
    ensures AllEffects(b, w, o, Did(p, now).trace) && Last(Did(p, now), w) == now
  {
    var trace := Did(p, now).trace;
    forall i | 0 <= i < |trace| ensures Effect(b, w, o, Before(w, trace, i), trace[i]) {
      Earlier(w, p, now, i);
    }
  }

  lemma PlanEffects(b: Binary, w: World, o: Oracle)
    ensures Sofar(b, w, o, Planned(b, w, o)) && Last(Planned(b, w, o), w).running == w.running
    ensures !o.confirm ==> Planned(b, w, o).trace == []
  {
    if Planned(b, w, o).trace != [] { OneMore(b, w, o, Progress([], false), w.(intent := Some(Intent(b.target, w.installed, w.running, false, false)))); }
  }

  lemma QuiesceEffects(b: Binary, w: World, o: Oracle)
    ensures var q := Quiesce(b, w, o, Planned(b, w, o));
            Sofar(b, w, o, q) && (!q.returned && o.confirm && Needs(b, w.schema) ==> !Last(q, w).running)
  {
    var p := Planned(b, w, o);
    PlanEffects(b, w, o);
    var v := Last(p, w);
    if Quiesce(b, w, o, p).trace != p.trace { OneMore(b, w, o, p, v.(running := false, owed := v.owed || v.running)); }
  }

  lemma AbandonEffects(b: Binary, w: World, o: Oracle, p: Progress)
    requires AllEffects(b, w, o, p.trace) && o.migrate.Failed?
    ensures AllEffects(b, w, o, Abandon(Last(p, w), o, p).trace) && Abandon(Last(p, w), o, p).returned
  {
    var v := Last(p, w);
    if v.intent.Some? {
      if v.intent.value.installed && v.intent.value.wasRunning {
        if o.restart {
          var up := v.(running := v.installed, owed := v.owed && !v.installed);
          OneMore(b, w, o, p, up);
          if o.abandon { OneMore(b, w, o, Did(p, up), up.(intent := None)); }
        }
      } else if o.abandon {
        OneMore(b, w, o, p, v.(intent := None));
      }
    }
  }

  lemma CommitEffects(b: Binary, w: World, o: Oracle, p: Progress)
    requires Sofar(b, w, o, p) && !Last(p, w).running && !p.returned && o.confirm && Needs(b, w.schema) && !o.migrate.Failed?
    ensures AllEffects(b, w, o, Migrate(b, w, o, p).trace)
  {
    var v := Last(p, w);
    var done := o.migrate.Committed?;
    var migrated := if done then v.(schema := b.target, verified := true) else v;
    var q := if done then Did(p, migrated) else p;
    if done { OneMore(b, w, o, p, migrated); }
    assert Last(q, w) == migrated;
    if v.intent.Some? && o.record {
      OneMore(b, w, o, q, migrated.(intent := Some(v.intent.value.(backupVerified := done, identityPreserved := done))));
    }
  }

  lemma MigrateEffects(b: Binary, w: World, o: Oracle, p: Progress)
    requires Sofar(b, w, o, p) && (!p.returned && o.confirm && Needs(b, w.schema) ==> !Last(p, w).running)
    ensures var q := Migrate(b, w, o, p); AllEffects(b, w, o, q.trace) && (q.trace != [] ==> o.confirm)
  {
    if !p.returned && o.confirm && Needs(b, w.schema) {
      if o.migrate.Failed? { AbandonEffects(b, w, o, p); } else { CommitEffects(b, w, o, p); }
    }
  }

  lemma RestoreEffects(b: Binary, w: World, o: Oracle, p: Progress)
    requires AllEffects(b, w, o, p.trace) && (p.trace != [] ==> o.confirm)
    ensures var q := Restore(w, o, p);
            && AllEffects(b, w, o, q.trace) && (q.trace != [] ==> o.confirm)
            && (var v := Last(q, w); !q.returned && o.confirm && v.intent.Some? && v.intent.value.installed ==> v.installed && v.running && !v.owed)
  {
    var v := Last(p, w);
    if !p.returned && o.confirm && v.intent.Some? && v.intent.value.installed && o.install {
      var present := v.(installed := true);
      OneMore(b, w, o, p, present);
      if o.note && o.start.Healthy? { OneMore(b, w, o, Did(p, present), present.(running := true, owed := false)); }
    }
  }

  lemma FinishEffects(b: Binary, w: World, o: Oracle, p: Progress)
    requires AllEffects(b, w, o, p.trace) && (p.trace != [] ==> o.confirm)
    requires var v := Last(p, w); !p.returned && o.confirm && v.intent.Some? && v.intent.value.installed ==> v.installed && v.running && !v.owed
    ensures var q := Finish(b, w, o, p); AllEffects(b, w, o, q.trace) && (q.trace != [] ==> o.confirm)
  {
    var v := Last(p, w);
    if !p.returned && o.confirm && v.intent.Some? && v.intent.value.backupVerified && v.intent.value.identityPreserved && o.identity && o.receipt {
      var sealed := v.(receipt := Some(Receipt(v.intent.value.target, true, true)), receipted := true);
      OneMore(b, w, o, p, sealed);
      if o.clear { OneMore(b, w, o, Did(p, sealed), sealed.(intent := None)); }
    }
  }

  /** A run does nothing but these effects, in any of which it may be cut off; and nothing at all unless it is confirmed
      and no intent of another schema is pending. */
  lemma RunIsEffects(b: Binary, w: World, o: Oracle)
    ensures AllEffects(b, w, o, RunOf(b, w, o).trace)
    ensures RunOf(b, w, o).trace != [] ==> o.confirm && (w.intent != None ==> w.intent.value.target == b.target)
  {
    var quiet := Quiesce(b, w, o, Planned(b, w, o));
    QuiesceEffects(b, w, o);
    MigrateEffects(b, w, o, quiet);
    var migrated := Migrate(b, w, o, quiet);
    RestoreEffects(b, w, o, migrated);
    FinishEffects(b, w, o, Restore(w, o, migrated));
  }

  // ---- how runs end ----

  /** A run in which every step succeeds migrates the cache, has the coordinator running again, and leaves a receipt and
      no intent. */
  lemma SuccessfulRun(b: Binary, w: World)
    requires Migratable(b, w.schema) && w.intent == None && w.installed && w.running
    ensures var p := RunOf(b, w, Smooth(Committed));
            && p.trace != [] && !p.returned
            && Last(p, w) == World(b.target, None, Some(Receipt(b.target, true, true)), true, true, false, true, true)
  {
    QuietThenMigrated(b, w, Smooth(Committed));
  }

  lemma QuietThenMigrated(b: Binary, w: World, o: Oracle)
    requires Migratable(b, w.schema) && w.intent == None && w.installed && w.running && (o == Smooth(Committed) || o == Smooth(Failed))
    ensures var planned := w.(intent := Some(Intent(b.target, true, true, false, false)));
            Quiesce(b, w, o, Planned(b, w, o)) == Progress([planned, planned.(running := false, owed := true)], false)
  {
  }

  /** One whose migration fails leaves the cache as it was, the coordinator running, and neither intent nor a new receipt. */
  lemma FailedRun(b: Binary, w: World)
    requires Migratable(b, w.schema) && w.intent == None && w.installed && w.running
    ensures var p := RunOf(b, w, Smooth(Failed)); p.returned && p.trace != [] && Last(p, w) == w.(owed := false)
  {
    QuietThenMigrated(b, w, Smooth(Failed));
  }

  /** Without a coordinator the migration needs no intent, and leaves no receipt. */
  lemma BareRun(b: Binary, w: World)
    requires Migratable(b, w.schema) && w.intent == None && !w.installed && !w.running
    ensures RunOf(b, w, Smooth(Committed)).trace == [w.(schema := b.target, verified := true)]
  {
  }

  /** A cache that is up to date or unknown is left alone. */
  lemma IdleRun(b: Binary, w: World, o: Oracle)
    requires !Migratable(b, w.schema) && w.intent == None
    ensures RunOf(b, w, o).trace == []
  {
  }
}
