/** The cache migration command and its recovery intent (internal/cli/cli.go, internal/cache/migrate.go):
    what is on disk and whether the coordinator runs, after every effect of every run. */
module MigrateCache {
  import opened Wrappers

  /** The recovery intent file; its phase names are reporting only. */
  datatype Intent = Intent(target: nat, installed: bool, wasRunning: bool, backupVerified: bool, identityPreserved: bool)
  datatype Receipt = Receipt(target: nat, backupVerified: bool, identityPreserved: bool)

  /** The last three fields are history: a running installed coordinator was quiesced and not started since; a
      migration committed with verified backup and preserved identity; a receipt was written. */
  datatype World = World(schema: nat, intent: Option<Intent>, receipt: Option<Receipt>, installed: bool, running: bool,
                         owed: bool, verified: bool, receipted: bool)

  datatype Quiesced = Refused | StoppedLate | Stopped
  datatype Migrated = Failed | Nothing | Committed
  datatype Started = NotStarted | Unhealthy | Healthy

  /** What the world answers to one run: confirmation, a process that is alive but does not answer, and the outcome
      of every step that can fail. */
  datatype Oracle = Oracle(confirm: bool, alive: bool, plan: bool, quiesce: Quiesced, mark: bool, migrate: Migrated,
                           restart: bool, abandon: bool, record: bool, install: bool, note: bool, start: Started,
                           identity: bool, receipt: bool, clear: bool)

  /** The binary's schema version and which stored versions it can migrate. */
  datatype Binary = Binary(target: nat, compatible: nat -> bool)

  predicate Needs(b: Binary, schema: nat) { b.compatible(schema) && 1 < schema < b.target }

  /** The effects so far, oldest first, and whether the command has returned. */
  datatype Progress = Progress(trace: seq<World>, returned: bool)

  function Last(p: Progress, w: World): World { if p.trace == [] then w else p.trace[|p.trace| - 1] }

  function Did(p: Progress, w: World): Progress { p.(trace := p.trace + [w]) }

  function Return(p: Progress): Progress { p.(returned := true) }

  // ---- the stages of a run ----

  function Planned(b: Binary, start: World, o: Oracle): Progress {
    var p := Progress([], false);
    if start.intent.Some? && (start.intent.value.target != b.target || !o.confirm) then Return(p)
    else if o.confirm && Needs(b, start.schema) && start.intent.None? && (start.installed || start.running || o.alive) then
      if !o.plan then Return(p)
      else Did(p, start.(intent := Some(Intent(b.target, start.installed, start.running, false, false))))
    else p
  }

  /** An uninstalled coordinator cannot be quiesced; a failure may leave it stopped. */
  function Quiesce(b: Binary, start: World, o: Oracle, p: Progress): Progress {
    var w := Last(p, start);
    if p.returned || !o.confirm || !(Needs(b, start.schema) || w.intent.Some?) || !(start.running || o.alive) then p
    else if !w.installed || o.quiesce.Refused? then Return(p)
    else
      var stopped := Did(p, w.(running := false, owed := w.owed || w.running));
      if o.quiesce.StoppedLate? || (w.intent.Some? && !o.mark) then Return(stopped) else stopped
  }

  /** A failed migration restarts the coordinator, if the intent says it ran, and gives the intent up. */
  function Abandon(w: World, o: Oracle, p: Progress): Progress {
    if w.intent.None? then Return(p)
    else if w.intent.value.installed && w.intent.value.wasRunning then
      if !o.restart then Return(p)
      else
        var up := w.(running := w.installed, owed := w.owed && !w.installed);
        var restarted := Did(p, up);
        Return(if o.abandon then Did(restarted, up.(intent := None)) else restarted)
    else Return(if o.abandon then Did(p, w.(intent := None)) else p)
  }

  function Migrate(b: Binary, start: World, o: Oracle, p: Progress): Progress {
    var w := Last(p, start);
    if p.returned || !o.confirm || !Needs(b, start.schema) then p
    else if o.migrate.Failed? then Abandon(w, o, p)
    else
      var done := o.migrate.Committed?;
      var migrated := if done then w.(schema := b.target, verified := true) else w;
      var q := if done then Did(p, migrated) else p;
      if w.intent.None? then q
      else if !o.record then Return(q)
      else Did(q, migrated.(intent := Some(w.intent.value.(backupVerified := done, identityPreserved := done))))
  }

  function Restore(start: World, o: Oracle, p: Progress): Progress {
    var w := Last(p, start);
    if p.returned || !o.confirm || w.intent.None? || !w.intent.value.installed then p
    else if !o.install then Return(p)
    else
      var present := w.(installed := true);
      var q := Did(p, present);
      if !o.note || !o.start.Healthy? then Return(q)
      else Did(q, present.(running := true, owed := false))
  }

  function Finish(b: Binary, start: World, o: Oracle, p: Progress): Progress {
    var w := Last(p, start);
    if p.returned || !o.confirm || w.intent.None? then p
    else
      var intent := w.intent.value;
      if !intent.backupVerified || !intent.identityPreserved || !o.identity || !o.receipt then Return(p)
      else
        var sealed := w.(receipt := Some(Receipt(intent.target, intent.backupVerified, intent.identityPreserved)), receipted := true);
        var q := Did(p, sealed);
        if o.clear then Did(q, sealed.(intent := None)) else Return(q)
  }

  function RunOf(b: Binary, w: World, o: Oracle): Progress {
    var planned := Planned(b, w, o);
    var quiet := Quiesce(b, w, o, planned);
    var migrated := Migrate(b, w, o, quiet);
    var restored := Restore(w, o, migrated);
    Finish(b, w, o, restored)
  }

  // ---- safety ----

  ghost predicate Evidence(i: Intent) { i.backupVerified && i.identityPreserved }

  /** Some binary of the intent's target would still migrate the cache. */
  predicate Behind(i: Intent, schema: nat) { 1 < schema < i.target }

  /** What an intent must say so that no way through the command gives it up with the coordinator down: the
      coordinator is to be reinstalled, and restarted even if the migration fails; or nothing is left to migrate
      and the intent can never be completed. */
  ghost predicate Sound(i: Intent, schema: nat) {
    if i.installed then i.wasRunning || !Behind(i, schema) else !Behind(i, schema) && !Evidence(i)
  }

  /** A quiesced coordinator has a sound intent on disk; evidence and receipts come from verified migrations. */
  ghost predicate Safe(w: World) {
    && (w.owed ==> w.installed && w.intent.Some? && Sound(w.intent.value, w.schema))
    && (w.intent.Some? && Evidence(w.intent.value) ==> w.verified)
    && (w.receipted ==> w.verified && w.receipt.Some? && w.receipt.value.backupVerified && w.receipt.value.identityPreserved)
  }

  /** The run does not quiesce a coordinator under an unsound intent left by an earlier run. */
  ghost predicate Careful(b: Binary, w: World, o: Oracle) {
    (w.intent.Some? && w.intent.value.target == b.target && w.installed && w.running && o.confirm && !o.quiesce.Refused?)
    ==> Sound(w.intent.value, w.schema)
  }

  ghost predicate AllSafe(p: Progress) { forall i | 0 <= i < |p.trace| :: Safe(p.trace[i]) }

  /** Past the planning, an intent is for this binary's schema. */
  predicate OnTarget(b: Binary, w: World, p: Progress) {
    !p.returned && Last(p, w).intent.Some? ==> Last(p, w).intent.value.target == b.target
  }

  lemma PlannedIsSafe(b: Binary, w: World, o: Oracle)
    requires Safe(w)
    ensures var p := Planned(b, w, o); AllSafe(p) && Safe(Last(p, w)) && OnTarget(b, w, p)
  {
  }

  lemma QuiesceIsSafe(b: Binary, w: World, o: Oracle)
    requires Safe(w) && Careful(b, w, o)
    ensures var p := Quiesce(b, w, o, Planned(b, w, o)); AllSafe(p) && Safe(Last(p, w))
  {
    PlannedIsSafe(b, w, o);
  }

  lemma QuietFacts(b: Binary, w: World, o: Oracle)
    ensures var p := Quiesce(b, w, o, Planned(b, w, o)); Last(p, w).schema == w.schema && OnTarget(b, w, p)
  {
  }

  lemma AbandonIsSafe(w: World, o: Oracle, p: Progress)
    requires AllSafe(p) && Safe(w) && w == Last(p, w) && (w.owed ==> w.intent.Some? && w.intent.value.installed && w.intent.value.wasRunning)
    ensures var q := Abandon(w, o, p); AllSafe(q) && Safe(Last(q, w))
  {
  }

  lemma CommitIsSafe(b: Binary, w: World, o: Oracle, p: Progress)
    requires AllSafe(p) && Safe(Last(p, w)) && Last(p, w).schema == w.schema && OnTarget(b, w, p) && !o.migrate.Failed?
    ensures var q := Migrate(b, w, o, p); AllSafe(q) && Safe(Last(q, w))
  {
  }

  lemma MigrateIsSafe(b: Binary, w: World, o: Oracle, p: Progress)
    requires AllSafe(p) && Safe(Last(p, w)) && Last(p, w).schema == w.schema && OnTarget(b, w, p)
    ensures var q := Migrate(b, w, o, p); AllSafe(q) && Safe(Last(q, w))
  {
    if !o.migrate.Failed? {
      CommitIsSafe(b, w, o, p);
    } else if !p.returned && Needs(b, w.schema) {
      AbandonIsSafe(Last(p, w), o, p);
    }
  }

  lemma RestoreIsSafe(w: World, o: Oracle, p: Progress)
    requires AllSafe(p) && Safe(Last(p, w))
    ensures var q := Restore(w, o, p); AllSafe(q) && Safe(Last(q, w))
    ensures var q := Restore(w, o, p); var v := Last(q, w); !q.returned && o.confirm && v.intent.Some? && v.intent.value.installed ==> !v.owed
  {
  }

  lemma FinishIsSafe(b: Binary, w: World, o: Oracle, p: Progress)
    requires AllSafe(p) && Safe(Last(p, w))
    requires var v := Last(p, w); !p.returned && o.confirm && v.intent.Some? && v.intent.value.installed ==> !v.owed
    ensures var q := Finish(b, w, o, p); AllSafe(q) && Safe(Last(q, w))
  {
  }

  /** Every state that a run passes through is safe: whichever step fails, and wherever the run is cut off. */
  lemma RunIsSafe(b: Binary, w: World, o: Oracle)
    requires Safe(w) && Careful(b, w, o)
    ensures AllSafe(RunOf(b, w, o))
  {
    var quiet := Quiesce(b, w, o, Planned(b, w, o));
    var migrated := Migrate(b, w, o, quiet);
    QuiesceIsSafe(b, w, o);
    QuietFacts(b, w, o);
    MigrateIsSafe(b, w, o, quiet);
    RestoreIsSafe(w, o, migrated);
    FinishIsSafe(b, w, o, Restore(w, o, migrated));
  }

  // ---- any number of runs, each of any binary and cut off anywhere ----

  /** One run of some binary, the number of its effects that happened, and what the user did to the service afterwards. */
  datatype Attempt = Attempt(binary: Binary, oracle: Oracle, effects: nat, installed: bool, running: bool)

  function CutOff(w: World, p: Progress, effects: nat): World {
    if effects == 0 || p.trace == [] then w
    else p.trace[if effects <= |p.trace| then effects - 1 else |p.trace| - 1]
  }

  /** The user may install, start, stop or remove the service; starting or removing it settles what was owed. */
  function Touched(w: World, installed: bool, running: bool): World {
    w.(installed := installed, running := running, owed := w.owed && installed && !running)
  }

  function After(w: World, a: Attempt): World {
    Touched(CutOff(w, RunOf(a.binary, w, a.oracle), a.effects), a.installed, a.running)
  }

  ghost predicate AllCareful(w: World, attempts: seq<Attempt>)
    decreases |attempts|
  {
    attempts == [] || (Careful(attempts[0].binary, w, attempts[0].oracle) && AllCareful(After(w, attempts[0]), attempts[1..]))
  }

  function History(w: World, attempts: seq<Attempt>): World
    decreases |attempts|
  {
    if attempts == [] then w else History(After(w, attempts[0]), attempts[1..])
  }

  /** Across crashes, failures and reruns, whichever binaries they use: a coordinator that was quiesced has been started
      again or its recovery intent is still on disk, and a receipt exists only after a verified migration. */
  lemma {:induction false} HistoryIsSafe(w: World, attempts: seq<Attempt>)
    requires Safe(w) && AllCareful(w, attempts)
    ensures var u := History(w, attempts);
            Safe(u) && (u.owed ==> u.intent.Some?) && (u.receipted ==> u.verified)
    decreases |attempts|
  {
    if attempts != [] {
      RunIsSafe(attempts[0].binary, w, attempts[0].oracle);
      HistoryIsSafe(After(w, attempts[0]), attempts[1..]);
    }
  }

  // ---- the exact condition ----

  /** A running installed coordinator and an intent of an earlier run. */
  ghost predicate Rerun(w: World) {
    w.intent.Some? && w.installed && w.running && !w.owed && Safe(w)
  }

  ghost predicate Stranded(w: World) { w.owed && w.intent.None? }

  /** Everything goes well, except possibly the migration. */
  function Smooth(migrate: Migrated): Oracle {
    Oracle(true, false, true, Stopped, true, migrate, true, true, true, true, true, Healthy, true, true, true)
  }

  /** A binary that can migrate every older schema. */
  function Capable(target: nat): Binary { Binary(target, (schema: nat) => true) }

  /** The intent of an earlier run is sound if and only if no rerun over it, of any binary, can strand the coordinator:
      stop it, and give the intent up without having started it again. */
  lemma SoundnessIsExact(w: World)
    requires Rerun(w)
    ensures Sound(w.intent.value, w.schema)
            <==> forall b, o, i | 0 <= i < |RunOf(b, w, o).trace| :: !Stranded(RunOf(b, w, o).trace[i])
  {
    if Sound(w.intent.value, w.schema) {
      forall b, o, i | 0 <= i < |RunOf(b, w, o).trace| ensures !Stranded(RunOf(b, w, o).trace[i]) {
        RunIsSafe(b, w, o);
      }
    } else {
      var b, o := Capable(w.intent.value.target), Smooth(if w.intent.value.installed then Failed else Committed);
      UnsoundStrands(b, w, o);
    }
  }

  lemma UnsoundStrands(b: Binary, w: World, o: Oracle)
    requires Rerun(w) && !Sound(w.intent.value, w.schema)
    requires b.target == w.intent.value.target && (Behind(w.intent.value, w.schema) ==> b.compatible(w.schema))
    requires o == Smooth(if w.intent.value.installed then Failed else Committed)
    ensures var trace := RunOf(b, w, o).trace; trace != [] && Stranded(trace[|trace| - 1])
  {
  }

  /** Such an intent arises without any tampering: the coordinator ran uninstalled, the first run planned and could not
      quiesce it; then the user installed it, and the second run leaves it stopped with a receipt. */
  lemma StaleIntentStrands(b: Binary, w: World)
    requires Needs(b, w.schema) && w.intent.None? && !w.installed && w.running && !w.owed && Safe(w)
    ensures var first := Attempt(b, Smooth(Committed), 1, true, true);
            var u := After(w, first);
            var trace := RunOf(b, u, Smooth(Committed)).trace;
            Rerun(u) && trace != [] && Stranded(trace[|trace| - 1]) && trace[|trace| - 1].receipt.Some?
  {
    var u := After(w, Attempt(b, Smooth(Committed), 1, true, true));
    assert u.intent == Some(Intent(b.target, false, true, false, false));
    UnsoundStrands(b, u, Smooth(Committed));
  }

  // ---- evidence that a crash loses ----

  /** Nothing is left to migrate, and the intent does not say that it was done well. */
  ghost predicate Unproven(w: World) {
    w.intent.Some? && !Evidence(w.intent.value) && !Behind(w.intent.value, w.schema)
  }

  /** Nor has a receipt been issued since w. */
  ghost predicate StillUnproven(w: World, v: World)
    requires Unproven(w)
  {
    Unproven(v) && v.receipt == w.receipt && v.receipted == w.receipted && v.schema == w.schema && v.intent.value.target == w.intent.value.target
  }

  ghost predicate AllUnproven(w: World, p: Progress)
    requires Unproven(w)
  {
    StillUnproven(w, Last(p, w)) && forall i | 0 <= i < |p.trace| :: StillUnproven(w, p.trace[i])
  }

  lemma QuiesceKeepsUnproven(b: Binary, w: World, o: Oracle)
    requires Unproven(w)
    ensures var p := Quiesce(b, w, o, Planned(b, w, o)); AllUnproven(w, p) && OnTarget(b, w, p)
  {
  }

  lemma MigrateKeepsUnproven(b: Binary, w: World, o: Oracle, p: Progress)
    requires Unproven(w) && AllUnproven(w, p) && OnTarget(b, w, p)
    ensures Migrate(b, w, o, p) == p
  {
  }

  lemma RestoreKeepsUnproven(w: World, o: Oracle, p: Progress)
    requires Unproven(w) && AllUnproven(w, p)
    ensures AllUnproven(w, Restore(w, o, p))
  {
  }

  lemma FinishKeepsUnproven(b: Binary, w: World, o: Oracle, p: Progress)
    requires Unproven(w) && AllUnproven(w, p)
    ensures Finish(b, w, o, p).trace == p.trace
  {
  }

  lemma RunKeepsUnproven(b: Binary, w: World, o: Oracle)
    requires Unproven(w)
    ensures forall i | 0 <= i < |RunOf(b, w, o).trace| :: StillUnproven(w, RunOf(b, w, o).trace[i])
  {
    var quiet := Quiesce(b, w, o, Planned(b, w, o));
    QuiesceKeepsUnproven(b, w, o);
    MigrateKeepsUnproven(b, w, o, quiet);
    RestoreKeepsUnproven(w, o, quiet);
    FinishKeepsUnproven(b, w, o, Restore(w, o, quiet));
  }

  /** Nothing that is tried later issues a receipt or gives the intent up. */
  lemma {:induction false} UnprovenStays(w: World, attempts: seq<Attempt>)
    requires Unproven(w)
    ensures var v := History(w, attempts); Unproven(v) && v.receipt == w.receipt && v.receipted == w.receipted
    decreases |attempts|
  {
    if attempts != [] {
      RunKeepsUnproven(attempts[0].binary, w, attempts[0].oracle);
      UnprovenStays(After(w, attempts[0]), attempts[1..]);
    }
  }

  /** The user stops the service, then runs a capable binary. */
  function Recovery(target: nat): seq<Attempt> {
    [Attempt(Capable(target), Smooth(Committed), 0, true, false), Attempt(Capable(target), Smooth(Committed), 6, true, true)]
  }

  lemma SmoothMigrates(b: Binary, w: World)
    requires w.intent.Some? && !Unproven(w) && b == Capable(w.intent.value.target)
    ensures var p := Migrate(b, w, Smooth(Committed), Progress([], false)); var v := Last(p, w);
            |p.trace| <= 2 && !p.returned && v.intent.Some? && Evidence(v.intent.value)
  {
  }

  lemma SmoothRestores(w: World, p: Progress)
    requires !p.returned && Last(p, w).intent.Some?
    ensures var q := Restore(w, Smooth(Committed), p);
            |q.trace| <= |p.trace| + 2 && !q.returned && Last(q, w).intent == Last(p, w).intent
  {
  }

  lemma SmoothRun(b: Binary, w: World)
    requires w.intent.Some? && !Unproven(w) && b == Capable(w.intent.value.target) && !w.running
    ensures var p := RunOf(b, w, Smooth(Committed)); 0 < |p.trace| <= 6 && Last(p, w).receipted
  {
    var o := Smooth(Committed);
    assert Quiesce(b, w, o, Planned(b, w, o)) == Progress([], false);
    SmoothMigrates(b, w);
    SmoothRestores(w, Migrate(b, w, o, Progress([], false)));
  }

  lemma RecoverySucceeds(w: World)
    requires w.intent.Some? && !Unproven(w)
    ensures History(w, Recovery(w.intent.value.target)).receipted
  {
    var attempts := Recovery(w.intent.value.target);
    var u := Touched(w, true, false);
    SmoothRun(Capable(w.intent.value.target), u);
    assert After(w, attempts[0]) == u && attempts[1..][0] == attempts[1] && attempts[1..][1..] == [];
    assert History(w, attempts) == History(u, attempts[1..]) == History(After(u, attempts[1]), []);
  }

  /** A pending intent can never be completed, whatever is tried later and with whichever binary, if and only if
      nothing is left to migrate and the intent holds no evidence; then it is not given up, either. */
  lemma LostEvidenceIsFinal(w: World)
    requires w.intent.Some? && !w.receipted
    ensures Unproven(w) <==> forall attempts :: !History(w, attempts).receipted
    ensures Unproven(w) ==> forall attempts :: Unproven(History(w, attempts))
  {
    if Unproven(w) {
      forall attempts ensures Unproven(History(w, attempts)) && !History(w, attempts).receipted { UnprovenStays(w, attempts); }
    } else {
      RecoverySucceeds(w);
    }
  }

  /** A crash of an ordinary run between the commit and the rewriting of the intent leaves a verified migration that no
      later attempt can issue a receipt for. */
  lemma CrashAfterCommit(b: Binary, w: World)
    requires Needs(b, w.schema) && w.intent.None? && !w.receipted && w.installed && w.running
    ensures var u := After(w, Attempt(b, Smooth(Committed), 3, true, false));
            && u.verified && u.schema == b.target && u.intent.Some?
            && forall attempts :: !History(u, attempts).receipted && History(u, attempts).intent.Some?
  {
    var u := After(w, Attempt(b, Smooth(Committed), 3, true, false));
    assert Unproven(u);
    LostEvidenceIsFinal(u);
  }
}
