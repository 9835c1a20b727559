/** Safety of the audit protocol over all interleavings. */
module WriteSettlementSafety {
  import opened Wrappers
  import opened Text
  import opened Records
  import opened RecordsContent
  import opened WriteSettlement
  import opened WriteSettlementOutcomes

  // ---- graph statements and receipts do not meet ----

  ghost predicate ReceiptsUntouched(t: Tables, u: Tables) { u.audit == t.audit && u.repos == t.repos }

  lemma DeletionLeavesReceipts(t: Tables, repo: string, gone: set<NodeKey>)
    ensures ReceiptsUntouched(t, DeleteNodes(t, repo, gone))
  {
  }

  lemma ReconciliationLeavesReceipts(t: Tables, w: Write)
    requires w.DropStaleChildren?
    ensures ReceiptsUntouched(t, Exec(t, w).value)
  {
    DeletionLeavesReceipts(t, w.repo, StaleChildren(t, w.repo, w.parent, w.kind, w.keep));
  }

  lemma ResetLeavesReceipts(t: Tables, w: Write)
    requires w.DropLive?
    ensures ReceiptsUntouched(t, Exec(t, w).value)
  {
    DeletionLeavesReceipts(t, w.repo, LiveNodes(t, w.repo));
  }

  lemma RowLeavesReceipts(t: Tables, w: Write)
    requires Exec(t, w).Some? && WritesRows(w)
    ensures ReceiptsUntouched(t, Exec(t, w).value)
  {
  }

  lemma AttachmentLeavesReceipts(t: Tables, w: Write)
    requires Exec(t, w).Some? && Attaches(w)
    ensures ReceiptsUntouched(t, Exec(t, w).value)
  {
  }

  lemma OtherLeavesReceipts(t: Tables, w: Write)
    requires Exec(t, w).Some? && !WritesRows(w) && !Attaches(w) && !w.DropStaleChildren? && !w.DropLive?
    ensures ReceiptsUntouched(t, Exec(t, w).value)
  {
  }

  lemma WriteLeavesReceipts(t: Tables, w: Write)
    requires Exec(t, w).Some?
    ensures ReceiptsUntouched(t, Exec(t, w).value)
  {
    if w.DropStaleChildren? {
      ReconciliationLeavesReceipts(t, w);
    } else if w.DropLive? {
      ResetLeavesReceipts(t, w);
    } else if WritesRows(w) {
      RowLeavesReceipts(t, w);
    } else if Attaches(w) {
      AttachmentLeavesReceipts(t, w);
    } else {
      OtherLeavesReceipts(t, w);
    }
  }

  lemma {:induction false} WritesLeaveReceipts(t: Tables, ws: seq<Write>)
    requires ExecAll(t, ws).Some?
    ensures ExecAll(t, ws).value.audit == t.audit && ExecAll(t, ws).value.repos == t.repos
    decreases |ws|
  {
    if ws != [] {
      WriteLeavesReceipts(t, ws[0]);
      WritesLeaveReceipts(Exec(t, ws[0]).value, ws[1..]);
    }
  }

  // ---- one row, one step ----

  function RowOf(t: Tables, k: NodeKey): Option<AuditRow> {
    if k in t.audit then Some(t.audit[k]) else None
  }

  predicate Claimed(s: Step, k: NodeKey, was: Option<AuditRow>, now: Option<AuditRow>) {
    && s.Claiming? && s.entry.key == k && now.Some? && Taken(s.entry.row, now.value, Dated(s.entry.row.createdAt))
    && (was.Some? ==> s.expected != "" && was.value.status.Failed? && was.value.createdAt == s.expected
                      && was.value.payloadHash == s.entry.row.payloadHash)
  }

  predicate Transitioned(s: Step, k: NodeKey, was: Option<AuditRow>, now: Option<AuditRow>) {
    && s.Transitioning? && s.entry.key == k && was.Some? && was.value.status == s.from && was.value.createdAt == s.expected
    && now.Some? && Taken(s.entry.row, now.value, s.expected)
  }

  predicate Staged(s: Step, k: NodeKey, was: Option<AuditRow>, now: Option<AuditRow>) {
    && s.Staging? && s.observed.key == k && was.Some? && was.value.status == s.observed.row.status
    && now.Some? && Carried(was.value, s.pending.row, now.value) && s.pending.row.status.RefreshPending?
  }

  predicate Settled(s: Step, k: NodeKey, was: Option<AuditRow>, now: Option<AuditRow>) {
    && s.Settling? && s.complete.key == k && was.Some? && was.value.status.RefreshPending?
    && now.Some? && Carried(was.value, s.complete.row, now.value) && s.complete.row.status.Succeeded?
  }

  /** A settlement changes something exactly if it publishes: then the pending receipt carries the nine columns of the
      complete one, no other receipt changes, and the graph's statements are executed on the rest; a caller whose
      receipt is stale changes nothing. */
  lemma SettlementIsAtomic(setup: Setup, t: Tables, g: RecordGraph, complete: Entry, pending: Entry, generation: string)
    ensures var a := Settle(setup, t, g, complete, pending, generation);
            var u := Next(setup, t, Settling(g, complete, pending, generation));
            && (a == Done(false, u) <==> Settleable(g, complete, pending) && !StillObserved(t, pending, generation))
            && (!(a.Done? && a.won) ==> u == t)
            && (a.Done? && a.won ==>
                  && StillObserved(t, pending, generation) && t.audit[complete.key].status.RefreshPending?
                  && OnlyReceipt(t, t.(audit := u.audit), complete.key)
                  && Carried(t.audit[complete.key], complete.row, u.audit[complete.key]) && u.audit[complete.key].status.Succeeded?
                  && ExecAll(t.(audit := u.audit), RecordGraphWrites(setup, g)) == Some(u))
  {
    if Settles(g, complete, pending) && Owns(t, pending, generation) {
      var start := Receipted(t, complete);
      AdvancedIsCarried(t, start, complete.key, complete.row);
      if ExecAll(start, RecordGraphWrites(setup, g)).Some? { WritesLeaveReceipts(start, RecordGraphWrites(setup, g)); }
    }
  }

  lemma SettlingRow(setup: Setup, t: Tables, s: Step, k: NodeKey)
    requires s.Settling?
    ensures var was, now := RowOf(t, k), RowOf(Next(setup, t, s), k);
            if Answered(setup, t, s).Done? && Answered(setup, t, s).won && s.complete.key == k then Settled(s, k, was, now) else now == was
  {
    SettlementIsAtomic(setup, t, s.graph, s.complete, s.pending, s.generation);
  }

  lemma WritingRow(setup: Setup, t: Tables, s: Step, k: NodeKey)
    requires s.Writing?
    ensures RowOf(Next(setup, t, s), k) == RowOf(t, k)
  {
    if ExecAll(t, s.statements).Some? { WritesLeaveReceipts(t, s.statements); }
  }

  /** The only ways in which a receipt changes. */
  lemma RowStep(setup: Setup, t: Tables, s: Step, k: NodeKey)
    ensures var was, now := RowOf(t, k), RowOf(Next(setup, t, s), k);
            now == was || Claimed(s, k, was, now) || Transitioned(s, k, was, now) || Staged(s, k, was, now) || Settled(s, k, was, now)
  {
    if s.Settling? {
      SettlingRow(setup, t, s, k);
    } else if s.Writing? {
      WritingRow(setup, t, s, k);
    }
  }

  // ---- success is final ----

  /** The caller gives succeeded as the status it replaces. */
  predicate NamesSucceeded(s: Step) {
    || (s.Transitioning? && s.from.Succeeded?)
    || (s.Staging? && s.observed.row.status.Succeeded?)
  }

  predicate Respectful(steps: seq<Step>) { forall s | s in steps :: !NamesSucceeded(s) }

  predicate HasSucceeded(t: Tables, k: NodeKey) { k in t.audit && t.audit[k].status.Succeeded? }

  lemma {:induction false} SucceededIsFinal(setup: Setup, t: Tables, steps: seq<Step>, k: NodeKey)
    requires HasSucceeded(t, k) && Respectful(steps)
    ensures RowOf(Run(setup, t, steps), k) == RowOf(t, k)
    decreases |steps|
  {
    if steps != [] {
      assert steps[0] in steps;
      RowStep(setup, t, steps[0], k);
      SucceededIsFinal(setup, Next(setup, t, steps[0]), steps[1..], k);
    }
  }

  // ---- settlement publishes exactly once ----

  /** The step is a settlement of receipt k that publishes its graph. */
  predicate Publishes(setup: Setup, t: Tables, s: Step, k: NodeKey) {
    s.Settling? && s.complete.key == k && Answered(setup, t, s).Done? && Answered(setup, t, s).won
  }

  function Publications(setup: Setup, t: Tables, steps: seq<Step>, k: NodeKey): nat
    decreases |steps|
  {
    if steps == [] then 0
    else (if Publishes(setup, t, steps[0], k) then 1 else 0) + Publications(setup, Next(setup, t, steps[0]), steps[1..], k)
  }

  /** Over every interleaving of respectful callers a receipt is settled at most once, never after it has
      succeeded, and it has succeeded for good once it was settled. */
  lemma {:induction false} PublishedAtMostOnce(setup: Setup, t: Tables, steps: seq<Step>, k: NodeKey)
    requires Respectful(steps)
    ensures Publications(setup, t, steps, k) <= if HasSucceeded(t, k) then 0 else 1
    ensures Publications(setup, t, steps, k) == 1 ==> HasSucceeded(Run(setup, t, steps), k)
    decreases |steps|
  {
    if steps != [] {
      var u := Next(setup, t, steps[0]);
      assert steps[0] in steps;
      RowStep(setup, t, steps[0], k);
      if steps[0].Settling? { SettlingRow(setup, t, steps[0], k); }
      PublishedAtMostOnce(setup, u, steps[1..], k);
      if Publishes(setup, t, steps[0], k) {
        SucceededIsFinal(setup, u, steps[1..], k);
      }
    }
  }

  /** Whoever comes second, with whatever it observed before, loses, however many respectful steps lie between. */
  lemma LateSettlerLoses(setup: Setup, t: Tables, first: Step, steps: seq<Step>, second: Step)
    requires first.Settling? && Publishes(setup, t, first, first.complete.key) && Respectful(steps)
    requires second.Settling? && Settles(second.graph, second.complete, second.pending) && second.complete.key == first.complete.key
    ensures var u := Run(setup, Next(setup, t, first), steps); Answered(setup, u, second) == Done(false, u)
  {
    SettlingRow(setup, t, first, first.complete.key);
    SucceededIsFinal(setup, Next(setup, t, first), steps, first.complete.key);
  }

  /** Staging over a pending receipt with other metadata takes settlement away from whoever observed it before. */
  lemma RestagedOwnerLoses(setup: Setup, t: Tables, pending: Entry, observed: Entry, generation: string,
                           g: RecordGraph, complete: Entry)
    requires Stage(t, pending, observed, generation).Done? && Stage(t, pending, observed, generation).won
    requires pending.row.metadata != observed.row.metadata && Settles(g, complete, observed)
    ensures var u := Stage(t, pending, observed, generation).tables;
            Settle(setup, u, g, complete, observed, generation) == Done(false, u)
  {
  }

  /** The settlement of a receipt whose owner is pending publishes, if the graph's statements succeed. */
  lemma SettlementSucceeds(setup: Setup, t: Tables, g: RecordGraph, complete: Entry, pending: Entry, generation: string)
    requires Settles(g, complete, pending) && Owns(t, pending, generation)
    requires ExecAll(Receipted(t, complete), RecordGraphWrites(setup, g)).Some?
    ensures var s, u := Settling(g, complete, pending, generation), Next(setup, t, Settling(g, complete, pending, generation));
            Publishes(setup, t, s, complete.key) && ExecAll(Receipted(t, complete), RecordGraphWrites(setup, g)) == Some(u)
  {
  }

  /** Naming succeeded as the status to be replaced puts the pending row back. */
  lemma SucceededIsReplaced(setup: Setup, u: Tables, pending: Entry, generation: string)
    requires HasSucceeded(u, pending.key) && u.audit[pending.key].createdAt == generation
    requires pending.key.repo in u.repos && !KeyTaken(u, pending.key, pending.row.idempotency)
    ensures Next(setup, u, Transitioning(pending, generation, Succeeded))
            == u.(audit := u.audit[pending.key := pending.row.(createdAt := generation)])
  {
  }

  /** A caller that names succeeded reopens the receipt: the settlement before it and the same settlement after it
      both publish, wherever the graph's statements succeed twice. */
  lemma NamingSucceededReopens(setup: Setup, t: Tables, g: RecordGraph, complete: Entry, pending: Entry, generation: string)
    requires Settles(g, complete, pending) && Owns(t, pending, generation)
    requires pending.key.repo in t.repos && !KeyTaken(t, pending.key, pending.row.idempotency)
    requires ExecAll(Receipted(t, complete), RecordGraphWrites(setup, g)).Some?
    requires var u := ExecAll(Receipted(t, complete), RecordGraphWrites(setup, g)).value;
             ExecAll(Receipted(u.(audit := t.audit[pending.key := pending.row.(createdAt := generation)]), complete), RecordGraphWrites(setup, g)).Some?
    ensures var settle, reopen := Settling(g, complete, pending, generation), Transitioning(pending, generation, Succeeded);
            Publications(setup, t, [settle, reopen, settle], complete.key) == 2
  {
    var k, settle, reopen := complete.key, Settling(g, complete, pending, generation), Transitioning(pending, generation, Succeeded);
    SettlementSucceeds(setup, t, g, complete, pending, generation);
    SettlementIsAtomic(setup, t, g, complete, pending, generation);
    var u := Next(setup, t, settle);
    WritesLeaveReceipts(Receipted(t, complete), RecordGraphWrites(setup, g));
    SucceededIsReplaced(setup, u, pending, generation);
    var v := Next(setup, u, reopen);
    assert v.audit == t.audit[k := pending.row.(createdAt := generation)];
    SettlementSucceeds(setup, v, g, complete, pending, generation);
    ThreeSteps(setup, t, settle, reopen, settle, k);
  }

  lemma ThreeSteps(setup: Setup, t: Tables, a: Step, b: Step, c: Step, k: NodeKey)
    ensures var u := Next(setup, t, a);
            var v := Next(setup, u, b);
            Publications(setup, t, [a, b, c], k) == (if Publishes(setup, t, a, k) then 1 else 0)
              + (if Publishes(setup, u, b, k) then 1 else 0) + (if Publishes(setup, v, c, k) then 1 else 0)
  {
    var u := Next(setup, t, a);
    var v := Next(setup, u, b);
    assert [a, b, c][1..] == [b, c] && [b, c][1..] == [c] && [c][1..] == [];
    assert Publications(setup, v, [c], k) == (if Publishes(setup, v, c, k) then 1 else 0) + Publications(setup, Next(setup, v, c), [], k);
    assert Publications(setup, u, [b, c], k) == (if Publishes(setup, u, b, k) then 1 else 0) + Publications(setup, v, [c], k);
  }

  // ---- claims ----

  /** The step is a claim of receipt k that wins by expecting the failed generation. */
  predicate Reclaims(setup: Setup, t: Tables, s: Step, k: NodeKey, generation: string) {
    s.Claiming? && s.entry.key == k && s.expected == generation && Answered(setup, t, s).Done? && Answered(setup, t, s).won
  }

  function Reclaimers(setup: Setup, t: Tables, steps: seq<Step>, k: NodeKey, generation: string): nat
    decreases |steps|
  {
    if steps == [] then 0
    else (if Reclaims(setup, t, steps[0], k, generation) then 1 else 0)
         + Reclaimers(setup, Next(setup, t, steps[0]), steps[1..], k, generation)
  }

  /** No claim of the run creates the generation anew. */
  predicate Fresh(steps: seq<Step>, k: NodeKey, generation: string) {
    forall s | s in steps && s.Claiming? && s.entry.key == k :: Created(s.entry.row).createdAt != generation
  }

  /** With fresh creation times a failed generation is reclaimed by at most one caller, and by none once the
      receipt carries another generation. */
  lemma {:induction false} ReclaimedAtMostOnce(setup: Setup, t: Tables, steps: seq<Step>, k: NodeKey, generation: string)
    requires k in t.audit && generation != "" && Fresh(steps, k, generation)
    ensures Reclaimers(setup, t, steps, k, generation) <= if t.audit[k].createdAt == generation then 1 else 0
    decreases |steps|
  {
    if steps != [] {
      RowStep(setup, t, steps[0], k);
      ReclaimedAtMostOnce(setup, Next(setup, t, steps[0]), steps[1..], k, generation);
    }
  }

  /** The step is a claim of receipt k that wins although it expects no failure, or wins where there is no row yet. */
  predicate Inserts(setup: Setup, t: Tables, s: Step, k: NodeKey) {
    && s.Claiming? && s.entry.key == k && (s.expected == "" || k !in t.audit)
    && Answered(setup, t, s).Done? && Answered(setup, t, s).won
  }

  function Inserters(setup: Setup, t: Tables, steps: seq<Step>, k: NodeKey): nat
    decreases |steps|
  {
    if steps == [] then 0
    else (if Inserts(setup, t, steps[0], k) then 1 else 0) + Inserters(setup, Next(setup, t, steps[0]), steps[1..], k)
  }

  lemma InsertStep(setup: Setup, t: Tables, s: Step, k: NodeKey)
    ensures Inserts(setup, t, s, k) ==> k !in t.audit
    ensures k in t.audit || Inserts(setup, t, s, k) ==> k in Next(setup, t, s).audit
  {
    RowStep(setup, t, s, k);
  }

  /** Over every interleaving of any callers, first claims of a key are won by one of them at most, and by none once
      the row exists; whoever wins leaves a row that stays. */
  lemma {:induction false} InsertedAtMostOnce(setup: Setup, t: Tables, steps: seq<Step>, k: NodeKey)
    ensures Inserters(setup, t, steps, k) <= if k in t.audit then 0 else 1
    ensures k in t.audit || Inserters(setup, t, steps, k) == 1 ==> k in Run(setup, t, steps).audit
    decreases |steps|
  {
    if steps != [] {
      InsertStep(setup, t, steps[0], k);
      InsertedAtMostOnce(setup, Next(setup, t, steps[0]), steps[1..], k);
    }
  }

  /** Such a claim over an existing receipt leaves it alone; otherwise it inserts the row as given. */
  lemma UnexpectingClaim(t: Tables, e: Entry)
    ensures e.key in t.audit ==> Claim(t, e, "") == Done(false, t)
    ensures e.key !in t.audit && Storable(t, e) ==>
              var a := Claim(t, e, "");
              && a.Done? && a.won && OnlyReceipt(t, a.tables, e.key)
              && Taken(e.row, a.tables.audit[e.key], Dated(e.row.createdAt))
  {
    ClaimIsExact(t, e, "");
  }

  /** A claim over the failed row of the generation it expects takes the row over. */
  lemma ReclaimOutcome(setup: Setup, t: Tables, e: Entry, generation: string)
    requires e.key in t.audit && e.key.repo in t.repos && !KeyTaken(t, e.key, e.row.idempotency) && generation != ""
    requires t.audit[e.key].createdAt == generation && t.audit[e.key].status.Failed? && t.audit[e.key].payloadHash == e.row.payloadHash
    ensures Reclaims(setup, t, Claiming(e, generation), e.key, generation)
    ensures Next(setup, t, Claiming(e, generation)) == t.(audit := t.audit[e.key := Created(e.row)])
  {
  }

  lemma FailOutcome(setup: Setup, t: Tables, e: Entry, generation: string)
    requires e.key in t.audit && e.key.repo in t.repos && !KeyTaken(t, e.key, e.row.idempotency)
    requires t.audit[e.key].createdAt == generation && t.audit[e.key].status.InProgress?
    ensures Next(setup, t, Transitioning(Entry(e.key, e.row.(status := Failed)), generation, InProgress))
            == t.(audit := t.audit[e.key := e.row.(status := Failed, createdAt := generation)])
  {
  }

  /** A failed receipt that the claim expects, and that the claim may take over. */
  predicate Reclaimable(t: Tables, e: Entry, generation: string) {
    && e.key in t.audit && e.key.repo in t.repos && !KeyTaken(t, e.key, e.row.idempotency) && generation != ""
    && t.audit[e.key].createdAt == generation && t.audit[e.key].status.Failed? && t.audit[e.key].payloadHash == e.row.payloadHash
  }

  /** Claim, fail, claim again. */
  function TwoClaims(e: Entry, generation: string): seq<Step> {
    [Claiming(e, generation), Transitioning(Entry(e.key, e.row.(status := Failed)), generation, InProgress), Claiming(e, generation)]
  }

  /** A claim that is created with the generation it expects can win again after it failed again. */
  lemma StaleTimesCollide(setup: Setup, t: Tables, e: Entry, generation: string)
    requires Reclaimable(t, e, generation) && e.row.status.InProgress? && Created(e.row).createdAt == generation
    ensures Reclaimers(setup, t, TwoClaims(e, generation), e.key, generation) == 2
  {
    var claim, fail := Claiming(e, generation), Transitioning(Entry(e.key, e.row.(status := Failed)), generation, InProgress);
    ReclaimOutcome(setup, t, e, generation);
    var v := Next(setup, t, claim);
    FailOutcome(setup, v, e, generation);
    var u := Next(setup, v, fail);
    ReclaimOutcome(setup, u, e, generation);
    assert [claim, fail, claim][1..] == [fail, claim] && [fail, claim][1..] == [claim] && [claim][1..] == [];
    assert Reclaimers(setup, u, [claim], e.key, generation) == 1 + Reclaimers(setup, Next(setup, u, claim), [], e.key, generation);
    assert Reclaimers(setup, v, [fail, claim], e.key, generation) == Reclaimers(setup, u, [claim], e.key, generation);
  }

  /** Whatever else happens, the receipt is only ever claimed with this entry. */
  predicate ClaimsOnly(steps: seq<Step>, e: Entry) {
    forall s | s in steps && s.Claiming? && s.entry.key == e.key :: s.entry == e
  }

  /** Fresh creation times are sufficient and necessary: the failed generation is reclaimed at most once in every run
      of callers that claim with e if and only if e is not created with that very generation. */
  lemma FreshnessIsExact(setup: Setup, t: Tables, e: Entry, generation: string)
    requires Reclaimable(t, e, generation) && e.row.status.InProgress?
    ensures Created(e.row).createdAt != generation
            <==> forall steps | ClaimsOnly(steps, e) :: Reclaimers(setup, t, steps, e.key, generation) <= 1
  {
    if Created(e.row).createdAt != generation {
      forall steps | ClaimsOnly(steps, e) ensures Reclaimers(setup, t, steps, e.key, generation) <= 1 {
        ReclaimedAtMostOnce(setup, t, steps, e.key, generation);
      }
    } else {
      StaleTimesCollide(setup, t, e, generation);
      assert ClaimsOnly(TwoClaims(e, generation), e);
    }
  }

  /** In particular claims without a time share one generation. */
  lemma ZeroTimesCollide(setup: Setup, t: Tables, e: Entry)
    requires Reclaimable(t, e, EPOCH) && e.row.status.InProgress? && e.row.createdAt == ""
    ensures Reclaimers(setup, t, TwoClaims(e, EPOCH), e.key, EPOCH) == 2
  {
    StaleTimesCollide(setup, t, e, EPOCH);
  }

  // ---- the payload hash bound to a key ----

  predicate WithoutTransitions(steps: seq<Step>) { forall s | s in steps :: !s.Transitioning? }

  /** Claims, stages and settlements never change the payload hash of a receipt. */
  lemma {:induction false} PayloadIsBound(setup: Setup, t: Tables, steps: seq<Step>, k: NodeKey)
    requires k in t.audit && WithoutTransitions(steps)
    ensures k in Run(setup, t, steps).audit && Run(setup, t, steps).audit[k].payloadHash == t.audit[k].payloadHash
    decreases |steps|
  {
    if steps != [] {
      RowStep(setup, t, steps[0], k);
      PayloadIsBound(setup, Next(setup, t, steps[0]), steps[1..], k);
    }
  }

  predicate KeyedStep(s: Step) { s.Claiming? || s.Transitioning? ==> Keyed(s.entry) }

  lemma KeyedRow(setup: Setup, t: Tables, s: Step, k: NodeKey)
    requires AllKeyed(t) && KeyedStep(s) && k in Next(setup, t, s).audit
    ensures Keyed(Entry(k, Next(setup, t, s).audit[k]))
  {
    RowStep(setup, t, s, k);
  }

  lemma {:induction false} RunStaysKeyed(setup: Setup, t: Tables, steps: seq<Step>)
    requires AllKeyed(t) && forall s | s in steps :: KeyedStep(s)
    ensures AllKeyed(Run(setup, t, steps))
    decreases |steps|
  {
    if steps != [] {
      var u := Next(setup, t, steps[0]);
      forall k | k in u.audit ensures Keyed(Entry(k, u.audit[k])) { KeyedRow(setup, t, steps[0], k); }
      RunStaysKeyed(setup, u, steps[1..]);
    }
  }

  lemma SamePrefix(prefix: string, a: string, b: string)
    requires prefix + a == prefix + b
    ensures a == b
  {
    assert (prefix + a)[|prefix|..] == a && (prefix + b)[|prefix|..] == b;
  }

  /** With derived ids a key names one row. */
  lemma OneRow(t: Tables, repo: string, key: string)
    requires AllKeyed(t)
    ensures Rows(t, repo, TrimSpace(key)) == {NodeKey(repo, EntryId(key))} * t.audit.Keys
  {
    var k := NodeKey(repo, EntryId(key));
    forall o ensures o in Rows(t, repo, TrimSpace(key)) <==> o == k && k in t.audit {
      if o in Rows(t, repo, TrimSpace(key)) {
        assert Keyed(Entry(o, t.audit[o]));
      }
      if o == k && k in t.audit {
        assert Keyed(Entry(k, t.audit[k]));
        SamePrefix("write-", t.audit[k].idempotency, TrimSpace(key));
      }
    }
  }

  /** After any run of claims, stages and settlements a lookup reports a replay for exactly the payload that was
      bound when the key was first claimed, and only once it succeeded. */
  lemma ReplayOnlyForBoundPayload(setup: Setup, t: Tables, steps: seq<Step>, repo: string, key: string, payloadHash: string)
    requires AllKeyed(t) && (forall s | s in steps :: KeyedStep(s)) && WithoutTransitions(steps)
    requires TrimSpace(key) != "" && NodeKey(repo, EntryId(key)) in t.audit
    requires t.audit[NodeKey(repo, EntryId(key))].payloadHash != ""
    ensures var k := NodeKey(repo, EntryId(key));
            var u := Run(setup, t, steps);
            Looked(u, repo, key, payloadHash, Replay) <==> HasSucceeded(u, k) && payloadHash == t.audit[k].payloadHash
  {
    var k := NodeKey(repo, EntryId(key));
    PayloadIsBound(setup, t, steps, k);
    RunStaysKeyed(setup, t, steps);
    OneRow(Run(setup, t, steps), repo, key);
    assert k in Rows(Run(setup, t, steps), repo, TrimSpace(key));
  }

  /** An empty stored hash binds nothing: a succeeded receipt without one is replayed for every payload. */
  lemma EmptyHashBindsNothing(t: Tables, repo: string, key: string, payloadHash: string)
    requires AllKeyed(t) && TrimSpace(key) != "" && HasSucceeded(t, NodeKey(repo, EntryId(key)))
    requires t.audit[NodeKey(repo, EntryId(key))].payloadHash == ""
    ensures Looked(t, repo, key, payloadHash, Replay)
  {
    OneRow(t, repo, key);
    assert NodeKey(repo, EntryId(key)) in Rows(t, repo, TrimSpace(key));
  }
}
