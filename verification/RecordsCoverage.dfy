/** Content generations over whole runs of the cache, and what a coverage row that shows the current one is worth
    (internal/cache/maintenance.go, internal/rag/indexer.go). */
module RecordsCoverage {
  import opened Wrappers
  import opened Records
  import opened RecordsContent
  import opened IssueParentRepair
  import opened IssueParentRepairResult

  datatype CoverageKey = CoverageKey(repo: string, namespace: string)
  datatype Coverage = Coverage(generation: nat, status: string, updatedAt: string)
  datatype Database = Database(tables: Tables, coverage: map<CoverageKey, Coverage>)

  /** A transaction of the record store, a repair of placeholders in some planned order, or the upsert of a coverage row. */
  datatype Step = Transact(ws: seq<Write>) | RepairPlaceholders(repo: string, order: seq<NodeKey>) | Cover(key: CoverageKey, row: Coverage)

  ghost function Next(sql: Sql, d: Database, step: Step): Database {
    match step
    case Transact(ws) => d.(tables := Committed(d.tables, ws))
    case RepairPlaceholders(repo, order) =>
      if Plan(d.tables, order, CanonOf(d.tables, repo)) then d.(tables := Repair(sql, d.tables, order, CanonOf(d.tables, repo))) else d
    case Cover(key, row) =>
      if key.repo == "" || key.namespace == "" || row.status == "" then d else d.(coverage := d.coverage[key := row])
  }

  ghost function Run(sql: Sql, d: Database, steps: seq<Step>): Database
    decreases |steps|
  {
    if steps == [] then d else Run(sql, Next(sql, d, steps[0]), steps[1..])
  }

  /** The state after the first i steps. */
  ghost function At(sql: Sql, d: Database, steps: seq<Step>, i: nat): Database
    requires i <= |steps|
  {
    Run(sql, d, steps[..i])
  }

  lemma {:induction false} RunOn(sql: Sql, d: Database, steps: seq<Step>, rest: seq<Step>)
    ensures Run(sql, d, steps + rest) == Run(sql, Run(sql, d, steps), rest)
    decreases |steps|
  {
    if steps == [] {
      assert steps + rest == rest;
    } else {
      assert (steps + rest)[0] == steps[0] && (steps + rest)[1..] == steps[1..] + rest;
      RunOn(sql, Next(sql, d, steps[0]), steps[1..], rest);
    }
  }

  lemma StepStamps(sql: Sql, d: Database, step: Step, repo: string)
    ensures Stamped(d.tables, Next(sql, d, step).tables, repo)
  {
    match step
    case Transact(ws) =>
      if ExecAll(d.tables, ws).Some? { ExecAllStamps(d.tables, ws, repo); }
    case RepairPlaceholders(r, order) =>
      if Plan(d.tables, order, CanonOf(d.tables, r)) { RepairStampsContent(sql, d.tables, order, CanonOf(d.tables, r), repo); }
    case Cover(_, _) =>
  }

  /** In a run of any transactions, repairs and coverage writes the generation never falls, and two states that show
      the same generation hold the same content. */
  lemma {:induction false} GenerationStampsContent(sql: Sql, d: Database, steps: seq<Step>, repo: string)
    ensures Stamped(d.tables, Run(sql, d, steps).tables, repo)
    decreases |steps|
  {
    if steps != [] {
      StepStamps(sql, d, steps[0], repo);
      GenerationStampsContent(sql, Next(sql, d, steps[0]), steps[1..], repo);
      StampedTransitive(d.tables, Next(sql, d, steps[0]).tables, Run(sql, d, steps).tables, repo);
    }
  }

  lemma Between(sql: Sql, d: Database, steps: seq<Step>, i: nat, j: nat, repo: string)
    requires i <= j <= |steps|
    ensures Stamped(At(sql, d, steps, i).tables, At(sql, d, steps, j).tables, repo)
  {
    assert steps[..j] == steps[..i] + steps[i..j];
    RunOn(sql, d, steps[..i], steps[i..j]);
    GenerationStampsContent(sql, At(sql, d, steps, i), steps[i..j], repo);
  }

  /** Whoever covers the namespace records the generation that it read before it began. */
  ghost predicate CoverageIsObserved(sql: Sql, d: Database, steps: seq<Step>, key: CoverageKey) {
    forall j | 0 <= j < |steps| && steps[j].Cover? && steps[j].key == key ::
      exists i: nat :: i <= j && steps[j].row.generation == Generation(At(sql, d, steps, i).tables, key.repo)
  }

  lemma OneMoreStep(sql: Sql, d: Database, steps: seq<Step>, n: nat)
    requires n < |steps|
    ensures At(sql, d, steps, n + 1) == Next(sql, At(sql, d, steps, n), steps[n])
  {
    assert steps[..n + 1] == steps[..n] + [steps[n]];
    RunOn(sql, d, steps[..n], [steps[n]]);
    assert Run(sql, At(sql, d, steps, n), [steps[n]]) == Run(sql, Next(sql, At(sql, d, steps, n), steps[n]), []);
  }

  /** So every coverage row shows the generation of some earlier state. */
  lemma {:induction false} CoverageWasObserved(sql: Sql, d: Database, steps: seq<Step>, key: CoverageKey, n: nat) returns (i: nat)
    requires key !in d.coverage && CoverageIsObserved(sql, d, steps, key) && n <= |steps| && key in At(sql, d, steps, n).coverage
    ensures i <= n && At(sql, d, steps, n).coverage[key].generation == Generation(At(sql, d, steps, i).tables, key.repo)
    decreases n
  {
    if n == 0 {
      assert false;
    } else {
      OneMoreStep(sql, d, steps, n - 1);
      var step := steps[n - 1];
      if step.Cover? && step.key == key && At(sql, d, steps, n).coverage[key] == step.row {
        i :| i <= n - 1 && step.row.generation == Generation(At(sql, d, steps, i).tables, key.repo);
      } else {
        i := CoverageWasObserved(sql, d, steps, key, n - 1);
      }
    }
  }

  /** No state since the i-th step held other content. */
  ghost predicate UnchangedSince(sql: Sql, d: Database, steps: seq<Step>, i: nat, repo: string)
    requires i <= |steps|
  {
    forall m | i <= m <= |steps| :: SameContent(At(sql, d, steps, i).tables, At(sql, d, steps, m).tables, repo)
  }

  /** A coverage row that shows the current generation: since the state in which its writer read that generation,
      no source or chunk of the repository has appeared, disappeared or changed its hash, not even for a while. */
  lemma FreshCoverageMeansUnchanged(sql: Sql, d: Database, steps: seq<Step>, key: CoverageKey)
    requires key !in d.coverage && CoverageIsObserved(sql, d, steps, key) && key in Run(sql, d, steps).coverage
    requires Run(sql, d, steps).coverage[key].generation == Generation(Run(sql, d, steps).tables, key.repo)
    ensures exists i: nat :: i <= |steps| && UnchangedSince(sql, d, steps, i, key.repo)
                             && Run(sql, d, steps).coverage[key].generation == Generation(At(sql, d, steps, i).tables, key.repo)
  {
    assert steps[..|steps|] == steps;
    var i := CoverageWasObserved(sql, d, steps, key, |steps|);
    forall m | i <= m <= |steps| ensures SameContent(At(sql, d, steps, i).tables, At(sql, d, steps, m).tables, key.repo) {
      Between(sql, d, steps, i, m, key.repo);
      Between(sql, d, steps, m, |steps|, key.repo);
    }
    assert UnchangedSince(sql, d, steps, i, key.repo);
  }
}
