/** The migration and the command around it, step by step. */
module MigrateCacheCommand {
  import opened Wrappers
  import opened MigrateCache

  // ---- internal/cache/migrate.go ----

  /** One step: what it makes of the cache identity, or None if it fails; the schema changes stay abstract. */
  type Apply = (nat, string) -> Option<string>

  datatype Backup = Backup(version: nat, identity: string)
  datatype Report = Report(from: nat, applied: seq<nat>, backupVerified: bool, identityPreserved: bool)

  function Pending(versions: seq<nat>, before: nat): seq<nat> {
    if versions == [] then []
    else (if versions[0] <= before then [] else [versions[0]]) + Pending(versions[1..], before)
  }

  /** Of increasing versions the pending ones are those from the first above the stored one. */
  lemma {:induction false} PendingIsSuffix(versions: seq<nat>, before: nat, n: nat)
    requires n <= |versions| && (forall i, j | 0 <= i < j < |versions| :: versions[i] < versions[j])
    requires (forall i | 0 <= i < n :: versions[i] <= before) && (forall i | n <= i < |versions| :: versions[i] > before)
    ensures Pending(versions, before) == versions[n..]
    decreases |versions|
  {
    if versions != [] {
      assert forall i | 0 < i < |versions| :: versions[i] == versions[1..][i - 1];
      PendingIsSuffix(versions[1..], before, if n == 0 then 0 else n - 1);
      if n == 0 { assert [versions[0]] + versions[1..] == versions; }
    }
  }

  /** The identity after the steps, None if one of them fails. */
  function Carried(apply: Apply, versions: seq<nat>, identity: string): Option<string> {
    if versions == [] then Some(identity)
    else match apply(versions[0], identity)
      case None => None
      case Some(next) => Carried(apply, versions[1..], next)
  }

  class CacheFile {
    const binary: Binary
    const versions: seq<nat>
    const apply: Apply
    var version: nat
    var identity: string
    var backups: seq<Backup>

    constructor (binary: Binary, versions: seq<nat>, apply: Apply, version: nat, identity: string)
      ensures this.binary == binary && this.versions == versions && this.apply == apply
      ensures this.version == version && this.identity == identity && backups == []
    {
      this.binary, this.versions, this.apply, this.version, this.identity, backups := binary, versions, apply, version, identity, [];
    }

    /** Backs the file up, checks the backup, applies the pending steps in one transaction, verifies and commits.
        The backup holds what its verification reads back. */
    method MigrateWithConfirm(confirmed: bool, copied: Option<Backup>, committed: bool) returns (r: Result<Report, string>)
      modifies this
      ensures r.Err? ==> version == old(version) && identity == old(identity)
      ensures r.Ok? ==> r.value.from == old(version)
      ensures r.Ok? && r.value.backupVerified ==>
                && Needs(binary, old(version)) && confirmed && version == binary.target
                && r.value.applied == Pending(versions, old(version))
                && copied.Some? && backups == old(backups) + [copied.value] && copied.value.version == old(version)
                && Carried(apply, r.value.applied, old(identity)) == Some(identity)
                && r.value.identityPreserved && (copied.value.identity == "" || identity == copied.value.identity)
      ensures r.Ok? && !r.value.backupVerified ==>
                version == old(version) && identity == old(identity) && r.value.applied == []
    {
      var before := version;
      if !binary.compatible(before) || before <= 1 || before >= binary.target || !confirmed {
        return Ok(Report(before, [], false, false));
      }
      if copied.None? { return Err("backup"); }
      if copied.value.version != before { return Err("backup version"); }
      backups := backups + [copied.value];
      var outcome := ApplyPending(apply, versions, before, identity);
      if outcome.None? { return Err("migration"); }
      if outcome.value.row != binary.target { return Err("schema version"); }
      if copied.value.identity != "" && outcome.value.identity != copied.value.identity { return Err("cache identity"); }
      if !committed { return Err("commit"); }
      version, identity := outcome.value.row, outcome.value.identity;
      r := Ok(Report(before, outcome.value.applied, true, copied.value.identity == "" || identity == copied.value.identity));
    }
  }

  /** The transaction's version row, the identity it carries, and the versions applied in it. */
  datatype Applied = Applied(row: nat, identity: string, applied: seq<nat>)

  method ApplyPending(apply: Apply, versions: seq<nat>, before: nat, identity: string) returns (r: Option<Applied>)
    ensures r.None? <==> Carried(apply, Pending(versions, before), identity).None?
    ensures r.Some? ==> r.value.applied == Pending(versions, before)
                        && Carried(apply, r.value.applied, identity) == Some(r.value.identity)
                        && r.value.row == if r.value.applied == [] then before else r.value.applied[|r.value.applied| - 1]
  {
    var row, uuid, applied := before, identity, [];
    var i := 0;
    while i < |versions|
      invariant 0 <= i <= |versions|
      invariant InProgress(apply, versions, i, before, identity, row, uuid, applied)
    {
      PendingStep(apply, versions, i, before, identity, row, uuid, applied);
      if versions[i] > before {
        var next := apply(versions[i], uuid);
        if next.None? { return None; }
        row, uuid, applied := versions[i], next.value, applied + [versions[i]];
      }
      i := i + 1;
    }
    assert Pending(versions[i..], before) == [];
    r := Some(Applied(row, uuid, applied));
  }

  /** The versions before i are applied or skipped. */
  ghost predicate InProgress(apply: Apply, versions: seq<nat>, i: nat, before: nat, identity: string, row: nat, uuid: string, applied: seq<nat>)
    requires i <= |versions|
  {
    && applied + Pending(versions[i..], before) == Pending(versions, before)
    && Carried(apply, Pending(versions, before), identity) == Carried(apply, Pending(versions[i..], before), uuid)
    && row == if applied == [] then before else applied[|applied| - 1]
  }

  lemma PendingStep(apply: Apply, versions: seq<nat>, i: nat, before: nat, identity: string, row: nat, uuid: string, applied: seq<nat>)
    requires i < |versions| && InProgress(apply, versions, i, before, identity, row, uuid, applied)
    ensures versions[i] <= before ==> InProgress(apply, versions, i + 1, before, identity, row, uuid, applied)
    ensures versions[i] > before ==>
              match apply(versions[i], uuid)
              case None => Carried(apply, Pending(versions, before), identity).None?
              case Some(next) => InProgress(apply, versions, i + 1, before, identity, versions[i], next, applied + [versions[i]])
  {
    PendingOne(versions, i, before);
    var rest := Pending(versions[i + 1..], before);
    if versions[i] > before {
      assert ([versions[i]] + rest)[0] == versions[i] && ([versions[i]] + rest)[1..] == rest;
      assert applied + ([versions[i]] + rest) == applied + [versions[i]] + rest;
    }
  }

  lemma PendingOne(versions: seq<nat>, i: nat, before: nat)
    requires i < |versions|
    ensures Pending(versions[i..], before)
         == if versions[i] <= before then Pending(versions[i + 1..], before) else [versions[i]] + Pending(versions[i + 1..], before)
  {
    assert versions[i..][0] == versions[i] && versions[i..][1..] == versions[i + 1..];
  }

  // ---- internal/cli/cli.go ----

  class Command {
    const binary: Binary
    var schema: nat
    var intent: Option<Intent>
    var receipt: Option<Receipt>
    var installed: bool
    var running: bool
    ghost var owed: bool
    ghost var verified: bool
    ghost var receipted: bool
    /** The state after every effect of the run. */
    ghost var trace: seq<World>

    ghost function Now(): World
      reads this
    {
      World(schema, intent, receipt, installed, running, owed, verified, receipted)
    }

    constructor (binary: Binary, schema: nat, intent: Option<Intent>, receipt: Option<Receipt>, installed: bool, running: bool)
      ensures this.binary == binary && trace == []
      ensures Now() == World(schema, intent, receipt, installed, running, false, false, false)
    {
      this.binary, this.schema, this.intent, this.receipt := binary, schema, intent, receipt;
      this.installed, this.running := installed, running;
      owed, verified, receipted, trace := false, false, false, [];
    }

    /** The command has got this far. */
    ghost predicate At(start: World, p: Progress, returned: bool)
      reads this
    {
      trace == p.trace && returned == p.returned && Now() == Last(p, start)
    }

    method WriteIntent(next: Option<Intent>)
      modifies this
      ensures Now() == old(Now()).(intent := next) && trace == old(trace) + [Now()]
    {
      intent := next;
      trace := trace + [Now()];
    }

    method Plan(o: Oracle) returns (returned: bool)
      requires trace == []
      modifies this
      ensures At(old(Now()), Planned(binary, old(Now()), o), returned)
    {
      if intent.Some? && (intent.value.target != binary.target || !o.confirm) { return true; }
      if o.confirm && Needs(binary, schema) && intent.None? && (installed || running || o.alive) {
        if !o.plan { return true; }
        WriteIntent(Some(Intent(binary.target, installed, running, false, false)));
      }
      returned := false;
    }

    method QuiesceCoordinator(o: Oracle, needs: bool, wasRunning: bool, ghost start: World, ghost p: Progress) returns (returned: bool)
      requires !p.returned && At(start, p, false) && needs == Needs(binary, start.schema) && wasRunning == start.running
      modifies this
      ensures At(start, Quiesce(binary, start, o, p), returned)
    {
      if !o.confirm || !(needs || intent.Some?) || !(wasRunning || o.alive) { return false; }
      if !installed || o.quiesce.Refused? { return true; }
      owed := owed || running;
      running := false;
      trace := trace + [Now()];
      returned := o.quiesce.StoppedLate? || (intent.Some? && !o.mark);
    }

    /** The branch of a failed migration; the command returns afterwards. */
    method AbandonMigration(o: Oracle, ghost start: World, ghost p: Progress)
      requires At(start, p, false)
      modifies this
      ensures At(start, Abandon(Last(p, start), o, p), true)
    {
      if intent.None? { return; }
      if intent.value.installed && intent.value.wasRunning {
        if !o.restart { return; }
        owed := owed && !installed;
        running := installed;
        trace := trace + [Now()];
      }
      if o.abandon { WriteIntent(None); }
    }

    method MigrateSchema(o: Oracle, needs: bool, ghost start: World, ghost p: Progress) returns (returned: bool)
      requires !p.returned && At(start, p, false) && needs == Needs(binary, start.schema)
      modifies this
      ensures At(start, Migrate(binary, start, o, p), returned)
    {
      if !o.confirm || !needs { return false; }
      if o.migrate.Failed? {
        AbandonMigration(o, start, p);
        return true;
      }
      if o.migrate.Committed? {
        schema, verified := binary.target, true;
        trace := trace + [Now()];
      }
      if intent.Some? {
        if !o.record { return true; }
        WriteIntent(Some(intent.value.(backupVerified := o.migrate.Committed?, identityPreserved := o.migrate.Committed?)));
      }
      returned := false;
    }

    method RestoreCoordinator(o: Oracle, ghost start: World, ghost p: Progress) returns (returned: bool)
      requires !p.returned && At(start, p, false)
      modifies this
      ensures At(start, Restore(start, o, p), returned)
    {
      if !o.confirm || intent.None? || !intent.value.installed { return false; }
      if !o.install { return true; }
      installed := true;
      trace := trace + [Now()];
      if !o.note || !o.start.Healthy? { return true; }
      running, owed := true, false;
      trace := trace + [Now()];
      returned := false;
    }

    method FinishRecovery(o: Oracle, ghost start: World, ghost p: Progress) returns (returned: bool)
      requires !p.returned && At(start, p, false)
      modifies this
      ensures At(start, Finish(binary, start, o, p), returned)
    {
      if !o.confirm || intent.None? { return false; }
      if !intent.value.backupVerified || !intent.value.identityPreserved || !o.identity || !o.receipt { return true; }
      receipt, receipted := Some(Receipt(intent.value.target, intent.value.backupVerified, intent.value.identityPreserved)), true;
      trace := trace + [Now()];
      if !o.clear { return true; }
      WriteIntent(None);
      returned := false;
    }

    /** One run of migrate-cache: its effects are exactly those of the specification. */
    method Execute(o: Oracle)
      requires trace == []
      modifies this
      ensures trace == RunOf(binary, old(Now()), o).trace
      ensures Now() == Last(RunOf(binary, old(Now()), o), old(Now()))
    {
      ghost var start := Now();
      var needs, wasRunning := Needs(binary, schema), running;
      var returned := Plan(o);
      ghost var p := Planned(binary, start, o);
      if !returned { returned := QuiesceCoordinator(o, needs, wasRunning, start, p); }
      p := Quiesce(binary, start, o, p);
      if !returned { returned := MigrateSchema(o, needs, start, p); }
      p := Migrate(binary, start, o, p);
      if !returned { returned := RestoreCoordinator(o, start, p); }
      p := Restore(start, o, p);
      if !returned { returned := FinishRecovery(o, start, p); }
    }
  }
}
