/** What each step of the audit protocol requires of the stored receipt, and what it leaves, column by column. */
module WriteSettlementOutcomes {
  import opened Wrappers
  import opened Text
  import opened Records
  import opened SyncBatch
  import opened WriteSettlement

  // ---- receipts ----

  /** No other row changes, and no other table. */
  ghost predicate OnlyReceipt(t: Tables, u: Tables, k: NodeKey) {
    && u == t.(audit := u.audit) && k in u.audit
    && forall o: NodeKey | o != k :: (o in u.audit <==> o in t.audit) && (o in t.audit ==> u.audit[o] == t.audit[o])
  }

  /** Another receipt of the repository carries the key. */
  ghost predicate HeldElsewhere(t: Tables, k: NodeKey, idempotency: string) {
    idempotency != "" && exists o: NodeKey :: o in t.audit && o.repo == k.repo && o.id != k.id && t.audit[o].idempotency == idempotency
  }

  ghost predicate Storable(t: Tables, e: Entry) { e.key.repo in t.repos && !HeldElsewhere(t, e.key, e.row.idempotency) }

  /** Every column as given except the generation. */
  predicate Taken(row: AuditRow, now: AuditRow, generation: string) {
    && now.operation == row.operation && now.command == row.command && now.mode == row.mode && now.record == row.record
    && now.remoteType == row.remoteType && now.remoteId == row.remoteId && now.idempotency == row.idempotency
    && now.status == row.status && now.message == row.message && now.payloadHash == row.payloadHash
    && now.metadata == row.metadata && now.createdAt == generation
  }

  /** The nine columns that staging and settlement write, and the three they leave. */
  predicate Carried(was: AuditRow, row: AuditRow, now: AuditRow) {
    && now.operation == row.operation && now.command == row.command && now.mode == row.mode && now.record == row.record
    && now.remoteType == row.remoteType && now.remoteId == row.remoteId
    && now.status == row.status && now.message == row.message && now.metadata == row.metadata
    && now.idempotency == was.idempotency && now.payloadHash == was.payloadHash && now.createdAt == was.createdAt
  }

  lemma PutAuditIsExact(t: Tables, e: Entry)
    ensures PutAudit(t, e.key, e.row).Done? <==> Storable(t, e)
    ensures Storable(t, e) ==>
              var a := PutAudit(t, e.key, e.row); a.won && OnlyReceipt(t, a.tables, e.key) && a.tables.audit[e.key] == e.row
  {
    if KeyTaken(t, e.key, e.row.idempotency) {
      var o :| o in t.audit && o != e.key && o.repo == e.key.repo && t.audit[o].idempotency == e.row.idempotency;
      assert o.id != e.key.id;
    }
    if HeldElsewhere(t, e.key, e.row.idempotency) {
      var o: NodeKey :| o in t.audit && o.repo == e.key.repo && o.id != e.key.id && t.audit[o].idempotency == e.row.idempotency;
      assert o != e.key;
    }
  }

  // ---- claims and transitions ----

  function Dated(createdAt: string): string { if createdAt == "" then "1970-01-01T00:00:00Z" else createdAt }

  /** There is no receipt yet, or it is the failed one that the caller expects, for the same payload. */
  predicate Claimable(t: Tables, e: Entry, expected: string) {
    e.key in t.audit ==>
      && expected != "" && t.audit[e.key].createdAt == expected
      && t.audit[e.key].status == Failed && t.audit[e.key].payloadHash == e.row.payloadHash
  }

  /** A claim wins exactly on a claimable receipt, loses on any other, and fails if the key is held elsewhere; a
      winner's row is stored under a new generation. */
  lemma ClaimIsExact(t: Tables, e: Entry, expected: string)
    ensures Claim(t, e, expected).Error? <==> Claimable(t, e, expected) && !Storable(t, e)
    ensures Claim(t, e, expected) == Done(false, t) <==> !Claimable(t, e, expected)
    ensures Claimable(t, e, expected) && Storable(t, e) ==>
              var a := Claim(t, e, expected);
              && a.Done? && a.won && OnlyReceipt(t, a.tables, e.key)
              && Taken(e.row, a.tables.audit[e.key], Dated(e.row.createdAt))
  {
    PutAuditIsExact(t, Entry(e.key, Created(e.row)));
  }

  predicate At(t: Tables, k: NodeKey, generation: string, status: AuditState) {
    k in t.audit && t.audit[k].createdAt == generation && t.audit[k].status == status
  }

  /** A transition wins exactly on the generation and status that the caller expects; the generation stays. */
  lemma TransitionIsExact(t: Tables, e: Entry, generation: string, from: AuditState)
    ensures Transition(t, e, generation, from).Error? <==> At(t, e.key, generation, from) && !Storable(t, e)
    ensures Transition(t, e, generation, from) == Done(false, t) <==> !At(t, e.key, generation, from)
    ensures At(t, e.key, generation, from) && Storable(t, e) ==>
              var a := Transition(t, e, generation, from);
              && a.Done? && a.won && OnlyReceipt(t, a.tables, e.key) && Taken(e.row, a.tables.audit[e.key], generation)
  {
    PutAuditIsExact(t, Entry(e.key, e.row.(createdAt := generation)));
  }

  // ---- staging and settlement ----

  /** The receipt is still the one observed: generation, status, payload and metadata. */
  predicate StillObserved(t: Tables, observed: Entry, generation: string) {
    && At(t, observed.key, generation, observed.row.status)
    && t.audit[observed.key].payloadHash == observed.row.payloadHash && t.audit[observed.key].metadata == observed.row.metadata
  }

  predicate OneReceipt(a: Entry, b: Entry) {
    a.key.repo == b.key.repo && a.key.id == b.key.id && a.row.idempotency == b.row.idempotency && a.row.payloadHash == b.row.payloadHash
  }

  ghost predicate CarriedOver(t: Tables, u: Tables, k: NodeKey, row: AuditRow) {
    k in t.audit && OnlyReceipt(t, u, k) && Carried(t.audit[k], row, u.audit[k])
  }

  lemma AdvancedIsCarried(t: Tables, u: Tables, k: NodeKey, row: AuditRow)
    requires k in t.audit
    ensures u == t.(audit := t.audit[k := Advanced(t.audit[k], row)]) <==> CarriedOver(t, u, k, row)
  {
    if CarriedOver(t, u, k, row) { assert u.audit == t.audit[k := Advanced(t.audit[k], row)]; }
  }

  /** Staging wins exactly while the receipt is as observed, and leaves the pending row's columns in it. */
  lemma StageIsExact(t: Tables, pending: Entry, observed: Entry, generation: string)
    ensures Stage(t, pending, observed, generation).Error? <==> !(OneReceipt(pending, observed) && pending.row.status == RefreshPending)
    ensures var a := Stage(t, pending, observed, generation);
            a.Done? ==> if StillObserved(t, observed, generation) then a.won && CarriedOver(t, a.tables, observed.key, pending.row)
                        else a == Done(false, t)
  {
    if StillObserved(t, observed, generation) {
      AdvancedIsCarried(t, t.(audit := t.audit[observed.key := Advanced(t.audit[observed.key], pending.row)]), observed.key, pending.row);
    }
  }

  /** The graph is for the receipt's record, brings no receipts of its own, and one receipt goes from pending to succeeded. */
  predicate Settleable(g: RecordGraph, complete: Entry, pending: Entry) {
    && g.record.repo == complete.key.repo && g.record.id == complete.row.record && g.auditTrail == []
    && OneReceipt(pending, complete) && pending.row.status == RefreshPending && complete.row.status == Succeeded
  }

  /** A settlement is an error exactly if it is not settleable or the graph's statements fail after the receipt is
      written; otherwise it wins exactly while the receipt is as observed, and leaves the receipt and the graph. */
  lemma SettleIsExact(setup: Setup, t: Tables, paid: Tables, g: RecordGraph, complete: Entry, pending: Entry, generation: string)
    requires complete.key in t.audit ==> CarriedOver(t, paid, complete.key, complete.row)
    ensures var a, wins := Settle(setup, t, g, complete, pending, generation), StillObserved(t, pending, generation);
            && (a.Error? <==> !Settleable(g, complete, pending) || (wins && ExecAll(paid, RecordGraphWrites(setup, g)).None?))
            && (a.Done? && wins ==> a.won && ExecAll(paid, RecordGraphWrites(setup, g)) == Some(a.tables))
            && (a.Done? && !wins ==> a == Done(false, t))
  {
    if complete.key in t.audit { AdvancedIsCarried(t, paid, complete.key, complete.row); }
  }

  // ---- lookups ----

  /** A receipt of the repository under the key, without the space around it. */
  predicate Under(t: Tables, k: NodeKey, repo: string, key: string) {
    k in t.audit && k.repo == repo && t.audit[k].idempotency == TrimSpace(key)
  }

  /** Another payload is a conflict; for the bound one the status decides what the caller may do. */
  predicate Judged(row: AuditRow, payloadHash: string, verdict: Verdict) {
    if row.payloadHash != "" && row.payloadHash != payloadHash then verdict == Conflict
    else
      && (verdict == Replay <==> row.status == Succeeded)
      && (verdict == Partial <==> row.status in {RefreshPending, RefreshFailed})
      && (verdict == Retry <==> row.status == Failed)
      && (verdict == Working <==> row.status == InProgress)
      && (verdict == Blocked <==> row.status == Unsafe)
      && (verdict == Other <==> row.status == AuditFailed)
  }

  lemma VerdictIsJudged(row: AuditRow, payloadHash: string, verdict: Verdict)
    ensures verdict == VerdictOn(row, payloadHash) <==> Judged(row, payloadHash, verdict)
  {
  }

  /** A lookup knows nothing exactly of a blank key or one without a receipt; else it judges a receipt under the key. */
  lemma LookupIsExact(t: Tables, repo: string, key: string, payloadHash: string, verdict: Verdict)
    ensures Looked(t, repo, key, payloadHash, verdict) <==>
              if AllSpace(key) || forall k: NodeKey :: !Under(t, k, repo, key) then verdict == Unknown
              else exists k: NodeKey :: Under(t, k, repo, key) && Judged(t.audit[k], payloadHash, verdict)
  {
    BlankIsSpace(key);
    forall k: NodeKey ensures k in Rows(t, repo, TrimSpace(key)) <==> Under(t, k, repo, key) {}
    forall k: NodeKey | Under(t, k, repo, key)
      ensures verdict == VerdictOn(t.audit[k], payloadHash) <==> Judged(t.audit[k], payloadHash, verdict)
    {
      VerdictIsJudged(t.audit[k], payloadHash, verdict);
    }
    if Rows(t, repo, TrimSpace(key)) != {} {
      var k :| k in Rows(t, repo, TrimSpace(key));
      assert Under(t, k, repo, key);
    }
  }

  /** A lookup that says retry hands its caller a claim that wins exactly if the receipt was bound to that payload. */
  lemma RetryIsClaimable(t: Tables, e: Entry)
    requires e.key in t.audit && VerdictOn(t.audit[e.key], e.row.payloadHash) == Retry
    requires Storable(t, e) && t.audit[e.key].createdAt != ""
    ensures var a := Claim(t, e, t.audit[e.key].createdAt); a.Done? && (a.won <==> t.audit[e.key].payloadHash == e.row.payloadHash)
  {
    ClaimIsExact(t, e, t.audit[e.key].createdAt);
  }

  /** And any other verdict on a receipt that is there hands it none. */
  lemma OnlyRetryIsClaimable(t: Tables, e: Entry, expected: string)
    requires e.key in t.audit && VerdictOn(t.audit[e.key], e.row.payloadHash) != Retry
    ensures Claim(t, e, expected) == Done(false, t)
  {
    ClaimIsExact(t, e, expected);
  }
}
