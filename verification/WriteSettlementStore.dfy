/** The audit protocol as the store runs it. */
module WriteSettlementStore {
  import opened Wrappers
  import opened Records
  import opened SyncBatch
  import opened RecordsStore
  import opened WriteSettlement
  import opened WriteSettlementOutcomes
  import opened WriteSettlementSafety
  import opened WriteSettlementPublished

  /** What a caller sees of an answer: an error, or whether it won; an error leaves the tables as they were. */
  ghost predicate Reports(a: Answer, before: Tables, ok: bool, won: bool, after: Tables) {
    match a
    case Error => !ok && !won && after == before
    case Done(w, u) => ok && won == w && after == u
  }

  class AuditStore {
    const setup: Setup
    const store: SqlStore

    constructor (setup: Setup, store: SqlStore)
      ensures this.setup == setup && this.store == store
    {
      this.setup, this.store := setup, store;
    }

    method PutAuditRow(k: NodeKey, row: AuditRow) returns (ok: bool)
      modifies store
      ensures Reports(PutAudit(old(store.tables), k, row), old(store.tables), ok, ok, store.tables)
    {
      if KeyTaken(store.tables, k, row.idempotency) || k.repo !in store.tables.repos { return false; }
      store.tables := store.tables.(audit := store.tables.audit[k := row]);
      ok := true;
    }

    method ClaimAuditEventGeneration(e: Entry, expected: string) returns (ok: bool, won: bool)
      modifies store
      ensures Reports(Claim(old(store.tables), e, expected), old(store.tables), ok, won, store.tables)
      ensures won <==> Claimable(old(store.tables), e, expected) && Storable(old(store.tables), e)
      ensures won ==> OnlyReceipt(old(store.tables), store.tables, e.key) && Taken(e.row, store.tables.audit[e.key], Dated(e.row.createdAt))
    {
      ClaimIsExact(store.tables, e, expected);
      if e.key in store.tables.audit {
        var held := store.tables.audit[e.key];
        if expected == "" || !held.status.Failed? || held.payloadHash != e.row.payloadHash || held.createdAt != expected {
          return true, false;
        }
      }
      ok := PutAuditRow(e.key, Created(e.row));
      won := ok;
    }

    method TransitionAuditEventGeneration(e: Entry, expectedAt: string, expectedStatus: AuditState) returns (ok: bool, won: bool)
      modifies store
      ensures Reports(Transition(old(store.tables), e, expectedAt, expectedStatus), old(store.tables), ok, won, store.tables)
      ensures won <==> At(old(store.tables), e.key, expectedAt, expectedStatus) && Storable(old(store.tables), e)
      ensures won ==> OnlyReceipt(old(store.tables), store.tables, e.key) && Taken(e.row, store.tables.audit[e.key], expectedAt)
    {
      TransitionIsExact(store.tables, e, expectedAt, expectedStatus);
      if e.key !in store.tables.audit { return true, false; }
      var held := store.tables.audit[e.key];
      if held.createdAt != expectedAt || held.status != expectedStatus { return true, false; }
      ok := PutAuditRow(e.key, e.row.(createdAt := expectedAt));
      won := ok;
    }

    /** UPDATE audit_trail .. WHERE the row is still exactly the observed one. */
    method Advance(observed: Entry, row: AuditRow, generation: string) returns (affected: bool)
      modifies store
      ensures affected == Owns(old(store.tables), observed, generation)
      ensures store.tables == if affected then old(store.tables).(audit := old(store.tables).audit[observed.key := Advanced(old(store.tables).audit[observed.key], row)])
                              else old(store.tables)
    {
      affected := Owns(store.tables, observed, generation);
      if affected {
        store.tables := store.tables.(audit := store.tables.audit[observed.key := Advanced(store.tables.audit[observed.key], row)]);
      }
    }

    method StageWriteGraphGeneration(pending: Entry, observed: Entry, generation: string) returns (ok: bool, won: bool)
      modifies store
      ensures Reports(Stage(old(store.tables), pending, observed, generation), old(store.tables), ok, won, store.tables)
      ensures ok <==> OneReceipt(pending, observed) && pending.row.status == RefreshPending
      ensures won <==> ok && StillObserved(old(store.tables), observed, generation)
      ensures won ==> CarriedOver(old(store.tables), store.tables, observed.key, pending.row)
    {
      StageIsExact(store.tables, pending, observed, generation);
      if !SameReceipt(pending, observed) || !pending.row.status.RefreshPending? { return false, false; }
      won := Advance(observed, pending.row, generation);
      ok := true;
    }

    method UpsertRelated(g: RecordGraph) returns (ok: bool)
      modifies store
      ensures Ran(old(store.tables), Concat(Each(r => RecordWrites(setup, r, g.origin), g.related)), ok, store.tables)
    {
      ghost var parts := Each(r => RecordWrites(setup, r, g.origin), g.related);
      var i := 0;
      while i < |g.related|
        invariant 0 <= i <= |g.related|
        invariant ExecAll(old(store.tables), Concat(parts)) == ExecAll(store.tables, Concat(parts[i..]))
      {
        ghost var before := store.tables;
        ok := store.ExecEach(RecordWrites(setup, g.related[i], g.origin));
        assert parts[i..][0] == RecordWrites(setup, g.related[i], g.origin) && parts[i..][1..] == parts[i + 1..];
        ExecAllConcat(before, parts[i..][0], Concat(parts[i + 1..]));
        if !ok { return; }
        i := i + 1;
      }
      ok := true;
    }

    /** The graph's own record and confirmations, then the related records, then everything attached to it. */
    method UpsertRecordGraph(g: RecordGraph) returns (ok: bool)
      modifies store
      ensures Ran(old(store.tables), RecordGraphWrites(setup, g), ok, store.tables)
      ensures ok ==> RecordGraphShown(setup, old(store.tables), store.tables, g)
    {
      ok := ExecGraph(g);
      if ok { PublishedRecordGraphIsShown(setup, old(store.tables), g, store.tables); }
    }

    method ExecGraph(g: RecordGraph) returns (ok: bool)
      modifies store
      ensures Ran(old(store.tables), RecordGraphWrites(setup, g), ok, store.tables)
    {
      var k := NodeKey(g.record.repo, g.record.id);
      var own := RecordWrites(setup, g.record, g.origin) + Each(c => ConfirmationWrite(setup, k, c), g.confirmations);
      ghost var related := Concat(Each(r => RecordWrites(setup, r, g.origin), g.related));
      var attached := Each(c => CommentWrite(k, c), g.comments) + Each(i => IdentityWrite(k, i), g.identities)
                      + LinkKindWrites(k, g.replaceLinkKinds) + Each(l => LinkWrite(k, l), g.links)
                      + Each(r => RevisionWrite(k, r), g.revisions);
      assert RecordGraphWrites(setup, g) == own + related + attached;
      ok := store.ExecEach(own);
      if !ok {
        RanOut(old(store.tables), own, related, store.tables);
        RanOut(old(store.tables), own + related, attached, store.tables);
        return;
      }
      ghost var first := store.tables;
      ok := UpsertRelated(g);
      RanOn(old(store.tables), own, first, related, ok, store.tables);
      if !ok {
        RanOut(old(store.tables), own + related, attached, store.tables);
        return;
      }
      ghost var second := store.tables;
      ok := store.ExecEach(attached);
      RanOn(old(store.tables), own + related, second, attached, ok, store.tables);
    }

    /** The receipt first, then the graph; an unowned receipt or a failing graph rolls back. */
    method SettleWriteGraphGeneration(g: RecordGraph, complete: Entry, pending: Entry, generation: string) returns (ok: bool, won: bool)
      modifies store
      ensures Reports(Settle(setup, old(store.tables), g, complete, pending, generation), old(store.tables), ok, won, store.tables)
      ensures won ==> StillObserved(old(store.tables), pending, generation)
      ensures won ==> OnlyReceipt(old(store.tables), old(store.tables).(audit := store.tables.audit), complete.key)
      ensures won ==> Carried(old(store.tables).audit[complete.key], complete.row, store.tables.audit[complete.key])
      ensures won ==> RecordGraphShown(setup, old(store.tables), store.tables, g)
    {
      ok, won := ExecSettlement(g, complete, pending, generation);
      SettlementIsAtomic(setup, old(store.tables), g, complete, pending, generation);
      if won { SettledGraphIsShown(setup, old(store.tables), g, complete, pending, generation, store.tables); }
    }

    method ExecSettlement(g: RecordGraph, complete: Entry, pending: Entry, generation: string) returns (ok: bool, won: bool)
      modifies store
      ensures Reports(Settle(setup, old(store.tables), g, complete, pending, generation), old(store.tables), ok, won, store.tables)
    {
      if !Settles(g, complete, pending) { return false, false; }
      var saved := store.tables;
      var affected := Advance(pending, complete.row, generation);
      if !affected { return true, false; }
      assert store.tables == Receipted(saved, complete);
      ok := ExecGraph(g);
      won := ok;
      if !ok { store.tables := saved; }
    }
  }
}
