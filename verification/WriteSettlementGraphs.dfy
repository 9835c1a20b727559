/** What a settlement publishes, and what record upserts keep of a record's identity. */
module WriteSettlementGraphs {
  import opened Wrappers
  import opened Text
  import opened Records
  import opened SyncBatch
  import opened SyncStored
  import opened SyncStatements
  import opened WriteSettlement
  import opened WriteSettlementSafety

  // ---- the published graph ----

  /** Everything before the link kinds are replaced. */
  function RowWrites(setup: Setup, g: RecordGraph): seq<Write> {
    var k := NodeKey(g.record.repo, g.record.id);
    RecordWrites(setup, g.record, g.origin)
    + Each(c => ConfirmationWrite(setup, k, c), g.confirmations)
    + Concat(Each(r => RecordWrites(setup, r, g.origin), g.related))
    + Each(c => CommentWrite(k, c), g.comments)
    + Each(i => IdentityWrite(k, i), g.identities)
  }

  function TailWrites(g: RecordGraph): seq<Write> {
    var k := NodeKey(g.record.repo, g.record.id);
    Each(l => LinkWrite(k, l), g.links) + Each(r => RevisionWrite(k, r), g.revisions)
  }

  lemma GraphInParts(setup: Setup, g: RecordGraph)
    ensures RecordGraphWrites(setup, g)
         == RowWrites(setup, g) + LinkKindWrites(NodeKey(g.record.repo, g.record.id), g.replaceLinkKinds) + TailWrites(g)
  {
  }

  lemma RowsOnlyPut(setup: Setup, g: RecordGraph, w: Write)
    requires w in RowWrites(setup, g)
    ensures !Deletes(w) && !w.PutLink?
  {
    var related := Each(r => RecordWrites(setup, r, g.origin), g.related);
    if w in Concat(related) {
      var i := InConcat(related, w);
      assert w in RecordWrites(setup, g.related[i], g.origin);
    }
  }

  /** The link kinds that the graph replaces. */
  predicate Replaces(g: RecordGraph, kind: string) {
    exists s | s in g.replaceLinkKinds :: !Blank(s) && TrimSpace(s) == kind
  }

  lemma {:induction false} LinkKindsOf(k: NodeKey, kinds: seq<string>)
    ensures forall w | w in LinkKindWrites(k, kinds) :: w.DropLinks? && w.node == k
    ensures forall s | s in kinds && !Blank(s) :: DropLinks(k, TrimSpace(s)) in LinkKindWrites(k, kinds)
  {
    if kinds != [] {
      LinkKindsOf(k, kinds[1..]);
      assert forall s :: s in kinds <==> s == kinds[0] || s in kinds[1..];
    }
  }

  /** Statements that only drop links of one node. */
  lemma {:induction false} DroppedLinks(t: Tables, k: NodeKey, ws: seq<Write>)
    requires forall w | w in ws :: w.DropLinks? && w.node == k
    ensures ExecAll(t, ws).Some?
    ensures var u := ExecAll(t, ws).value;
            && u == t.(links := u.links) && u.links <= t.links
            && forall l, w | l in u.links && w in ws :: !(From(l) == k && l.kind == w.kind)
    decreases |ws|
  {
    if ws != [] {
      assert ws[0] in ws;
      var u := DeleteLinks(t, k, ws[0].kind);
      DroppedLinks(u, k, ws[1..]);
      assert forall w :: w in ws <==> w == ws[0] || w in ws[1..];
    }
  }

  lemma LinkAddedOnce(t: Tables, w: Write, l: Link)
    requires (w.PutLink? || w.PutRevision?) && Exec(t, w).Some?
    ensures l in Exec(t, w).value.links <==> l in t.links || w == PutLink(l)
  {
  }

  lemma {:induction false} LinksAdded(t: Tables, ws: seq<Write>, l: Link)
    requires (forall w | w in ws :: w.PutLink? || w.PutRevision?) && ExecAll(t, ws).Some?
    ensures l in ExecAll(t, ws).value.links <==> l in t.links || PutLink(l) in ws
    decreases |ws|
  {
    if ws != [] {
      assert ws[0] in ws;
      LinkAddedOnce(t, ws[0], l);
      LinksAdded(Exec(t, ws[0]).value, ws[1..], l);
    }
  }

  lemma DroppingSpares(t: Tables, u: Tables, w: Write)
    requires u == t.(links := u.links) && !w.PutLink? && Written(t, w)
    ensures Written(u, w)
  {
  }

  lemma TailOnlyPuts(g: RecordGraph)
    ensures forall w | w in TailWrites(g) :: w.PutLink? || w.PutRevision?
  {
  }

  /** Executing rows, link drops and links leaves every row written and the replaced kinds with the graph's links only. */
  lemma PartsOutcome(t: Tables, k: NodeKey, rows: seq<Write>, drops: seq<Write>, tail: seq<Write>, u: Tables, w: Write, l: Link)
    requires NoDeletes(rows) && (forall v | v in rows :: !v.PutLink?)
    requires (forall v | v in drops :: v.DropLinks? && v.node == k) && (forall v | v in tail :: v.PutLink? || v.PutRevision?)
    requires ExecAll(t, rows + drops + tail) == Some(u)
    ensures w in rows || w in tail ==> Written(u, w)
    ensures l in u.links && From(l) == k && DropLinks(k, l.kind) in drops ==> PutLink(l) in tail
  {
    ExecAllConcat(t, rows + drops, tail);
    ExecAllConcat(t, rows, drops);
    var first := ExecAll(t, rows).value;
    DroppedLinks(first, k, drops);
    var second := ExecAll(first, drops).value;
    if w in rows {
      AllWritten(t, rows, w);
      DroppingSpares(first, second, w);
    }
    AllGrow(second, tail);
    if w in tail { AllWritten(second, tail, w); }
    LinksAdded(second, tail, l);
  }

  /** A winning settlement leaves every row of its graph in the tables, and of the link kinds it replaces exactly the
      graph's own links. */
  lemma SettledGraphIsStored(setup: Setup, t: Tables, g: RecordGraph, complete: Entry, pending: Entry, generation: string, u: Tables)
    requires Settle(setup, t, g, complete, pending, generation) == Done(true, u) && Owns(t, pending, generation)
    ensures forall w | w in RowWrites(setup, g) || w in TailWrites(g) :: Written(u, w)
    ensures forall l | l in u.links && From(l) == NodeKey(g.record.repo, g.record.id) && Replaces(g, l.kind) :: PutLink(l) in TailWrites(g)
  {
    var k := NodeKey(g.record.repo, g.record.id);
    var start := Receipted(t, complete);
    var drops := LinkKindWrites(k, g.replaceLinkKinds);
    GraphInParts(setup, g);
    LinkKindsOf(k, g.replaceLinkKinds);
    TailOnlyPuts(g);
    forall w | w in RowWrites(setup, g) ensures !Deletes(w) && !w.PutLink? { RowsOnlyPut(setup, g, w); }
    forall w | w in RowWrites(setup, g) || w in TailWrites(g) ensures Written(u, w) {
      PartsOutcome(start, k, RowWrites(setup, g), drops, TailWrites(g), u, w, Link("", "", "", "", ""));
    }
    forall l | l in u.links && From(l) == k && Replaces(g, l.kind) ensures PutLink(l) in TailWrites(g) {
      PartsOutcome(start, k, RowWrites(setup, g), drops, TailWrites(g), u, Reject, l);
    }
  }

  // ---- what upserts keep of a record ----

  /** The statement may rewrite who the provider says record k is. */
  predicate SpeaksForProvider(w: Write, k: NodeKey) { w.PutRecord? && w.node == k && Provider(w.record.provenance) }

  /** Created once, and known to the provider under one identity. */
  ghost predicate SameIdentity(a: Record, b: Record) {
    a.createdAt == b.createdAt && a.provenance == b.provenance && a.remoteType == b.remoteType && a.remoteId == b.remoteId
  }

  lemma UpsertKeepsIdentity(t: Tables, o: NodeKey, row: Record, k: NodeKey)
    requires k in t.records && Provider(t.records[k].provenance) && UpsertRecord(t, o, row).Some?
    requires o == k ==> !Provider(row.provenance)
    ensures k in UpsertRecord(t, o, row).value.records && SameIdentity(t.records[k], UpsertRecord(t, o, row).value.records[k])
  {
  }

  lemma OthersSpareRecords(t: Tables, w: Write)
    requires Exec(t, w).Some? && !w.PutRecord? && !w.DropStaleChildren? && !w.DropLive?
    ensures Exec(t, w).value.records == t.records
  {
  }

  lemma RecordStep(t: Tables, w: Write, k: NodeKey)
    requires k in t.records && Provider(t.records[k].provenance) && Exec(t, w).Some? && k in Exec(t, w).value.records
    requires !SpeaksForProvider(w, k)
    ensures SameIdentity(t.records[k], Exec(t, w).value.records[k])
  {
    if w.PutRecord? {
      UpsertKeepsIdentity(t, w.node, w.record, k);
    } else if !w.DropStaleChildren? && !w.DropLive? {
      OthersSpareRecords(t, w);
    }
  }

  /** No statement inserts or deletes record k. */
  ghost predicate Stays(t: Tables, ws: seq<Write>, k: NodeKey)
    decreases |ws|
  {
    k in t.records && (ws != [] && Exec(t, ws[0]).Some? ==> Stays(Exec(t, ws[0]).value, ws[1..], k))
  }

  /** A record that a provider knows keeps its creation time and its provider identity through any statements, as long
      as it is not deleted and no provider record is written over it: projections cannot take it over. */
  lemma {:induction false} ProjectionsKeepProviderIdentity(t: Tables, ws: seq<Write>, k: NodeKey)
    requires Stays(t, ws, k) && ExecAll(t, ws).Some? && Provider(t.records[k].provenance)
    requires forall w | w in ws :: !SpeaksForProvider(w, k)
    ensures k in ExecAll(t, ws).value.records && SameIdentity(t.records[k], ExecAll(t, ws).value.records[k])
    decreases |ws|
  {
    if ws != [] {
      var u := Exec(t, ws[0]).value;
      assert Stays(u, ws[1..], k) && ws[0] in ws;
      RecordStep(t, ws[0], k);
      ProjectionsKeepProviderIdentity(u, ws[1..], k);
    }
  }

  // ---- idempotency keys ----

  /** The unique index on non-empty idempotency keys holds. */
  ghost predicate KeysAreUnique(t: Tables) { forall k | k in t.audit :: !KeyTaken(t, k, t.audit[k].idempotency) }

  lemma PutAuditKeepsUnique(t: Tables, k: NodeKey, row: AuditRow)
    requires KeysAreUnique(t) && PutAudit(t, k, row).Done?
    ensures KeysAreUnique(PutAudit(t, k, row).tables)
  {
  }

  lemma SameKeysStayUnique(t: Tables, u: Tables)
    requires KeysAreUnique(t) && u.audit.Keys == t.audit.Keys && forall k | k in t.audit :: u.audit[k].idempotency == t.audit[k].idempotency
    ensures KeysAreUnique(u)
  {
  }

  lemma StepKeepsUnique(setup: Setup, t: Tables, s: Step)
    requires KeysAreUnique(t)
    ensures KeysAreUnique(Next(setup, t, s))
  {
    var u := Next(setup, t, s);
    if s.Claiming? {
      if u != t { PutAuditKeepsUnique(t, s.entry.key, Created(s.entry.row)); }
    } else if s.Transitioning? {
      if u != t { PutAuditKeepsUnique(t, s.entry.key, s.entry.row.(createdAt := s.expected)); }
    } else {
      forall k ensures (k in u.audit <==> k in t.audit) && (k in t.audit ==> u.audit[k].idempotency == t.audit[k].idempotency) {
        RowStep(setup, t, s, k);
        assert k in u.audit <==> RowOf(u, k).Some?;
      }
      SameKeysStayUnique(t, u);
    }
  }

  /** In every run a non-empty idempotency key names at most one receipt of a repository. */
  lemma {:induction false} KeysStayUnique(setup: Setup, t: Tables, steps: seq<Step>)
    requires KeysAreUnique(t)
    ensures KeysAreUnique(Run(setup, t, steps))
    decreases |steps|
  {
    if steps != [] {
      StepKeepsUnique(setup, t, steps[0]);
      KeysStayUnique(setup, Next(setup, t, steps[0]), steps[1..]);
    }
  }
}
