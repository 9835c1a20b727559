/** The record store's transactions as the code runs them: statement after statement, loop by loop, with a
    rollback on the first failure. */
module RecordsStore {
  import opened Wrappers
  import opened Collections
  import opened Records
  import opened SyncBatch
  import opened SyncReplay
  import opened SyncIdempotence
  import opened SyncPublished
  import opened SyncCommitted
  import opened RecordsOutcomes

  // ---- deleting one by one is deleting all at once ----

  lemma BumpTwice(g: map<string, nat>, repo: string, m: nat, n: nat, both: nat)
    requires both == m + n
    ensures Bump(Bump(g, repo, m), repo, n) == Bump(g, repo, both)
  {
  }

  lemma ChunksOneByOne(t: Tables, repo: string, gone: set<ChunkKey>, c: ChunkKey)
    requires c !in gone
    ensures DeleteChunks(DeleteChunks(t, repo, gone), repo, {c}) == DeleteChunks(t, repo, gone + {c})
  {
    assert |gone + {c}| == |gone| + 1;
    BumpTwice(t.generations, repo, |gone|, 1, |gone + {c}|);
    var u, v := DeleteChunks(DeleteChunks(t, repo, gone), repo, {c}), DeleteChunks(t, repo, gone + {c});
    assert u.chunks == v.chunks && u.embeddings == v.embeddings && u.generations == v.generations;
  }

  ghost predicate RowsDeleted(t: Tables, gone: set<NodeKey>, u: Tables) {
    && u.repos == t.repos && u.audit == t.audit
    && u.sources == t.sources - gone && u.search == t.search - gone && u.records == t.records - gone
    && u.links == WithoutLinks(t.links, gone)
    && u.confirmations == WithoutConfirmations(t.confirmations, gone)
  }

  ghost predicate LooseDeleted(t: Tables, gone: set<NodeKey>, u: Tables) {
    && u.comments == WithoutComments(t.comments, gone) && u.identities == WithoutIdentities(t.identities, gone)
    && u.revisions == t.revisions - gone && u.commentSyncs == t.commentSyncs - gone
    && u.frontiers == t.frontiers && u.maintenance == t.maintenance && u.receipts == t.receipts
  }

  ghost predicate ContentDeleted(t: Tables, repo: string, gone: set<NodeKey>, u: Tables) {
    && u.chunks == t.chunks - ChunksOf(t, gone)
    && u.embeddings == WithoutEmbeddings(t.embeddings, ChunksOf(t, gone))
    && u.generations == Bump(t.generations, repo, Firings(t, gone))
  }

  lemma DeletionOf(t: Tables, repo: string, gone: set<NodeKey>)
    ensures var u := DeleteNodes(t, repo, gone); RowsDeleted(t, gone, u) && LooseDeleted(t, gone, u) && ContentDeleted(t, repo, gone, u)
  {
  }

  lemma RowsOneByOne(t: Tables, u: Tables, v: Tables, w: Tables, gone: set<NodeKey>, k: NodeKey)
    requires RowsDeleted(t, gone, u) && RowsDeleted(u, {k}, v) && RowsDeleted(t, gone + {k}, w)
    ensures v.repos == w.repos && v.audit == w.audit && v.links == w.links && v.confirmations == w.confirmations
    ensures v.sources == w.sources && v.search == w.search && v.records == w.records
  {
  }

  lemma CommentsTwice(m: map<CommentKey, Comment>, a: set<NodeKey>, b: set<NodeKey>)
    ensures WithoutComments(WithoutComments(m, a), b) == WithoutComments(m, a + b)
  {
  }

  lemma IdentitiesTwice(m: map<AliasKey, Identity>, a: set<NodeKey>, b: set<NodeKey>)
    ensures WithoutIdentities(WithoutIdentities(m, a), b) == WithoutIdentities(m, a + b)
  {
  }

  lemma LooseOneByOne(t: Tables, u: Tables, v: Tables, w: Tables, gone: set<NodeKey>, k: NodeKey)
    requires LooseDeleted(t, gone, u) && LooseDeleted(u, {k}, v) && LooseDeleted(t, gone + {k}, w)
    ensures SameLoose(v, w) && SameCheckpoints(v, w)
  {
    CommentsTwice(t.comments, gone, {k});
    IdentitiesTwice(t.identities, gone, {k});
    MinusTwice(t.revisions, gone, {k});
    MinusTwice(t.commentSyncs, gone, {k});
  }

  lemma OwnedChunksSplit(t: Tables, u: Tables, gone: set<NodeKey>, k: NodeKey)
    requires k !in gone && u.chunks == t.chunks - ChunksOf(t, gone)
    ensures ChunksOf(t, gone + {k}) == ChunksOf(t, gone) + ChunksOf(u, {k}) && ChunksOf(t, gone) !! ChunksOf(u, {k})
  {
    forall c ensures c in ChunksOf(t, gone + {k}) <==> c in ChunksOf(t, gone) || c in ChunksOf(u, {k}) {
      assert c in u.chunks <==> c in t.chunks && c !in ChunksOf(t, gone);
    }
  }

  lemma KeysSplit(sources: map<NodeKey, Source>, gone: set<NodeKey>, k: NodeKey)
    requires k !in gone
    ensures |(gone + {k}) * sources.Keys| == |gone * sources.Keys| + |{k} * (sources - gone).Keys|
  {
    assert (sources - gone).Keys == sources.Keys - gone;
    DisjointUnion(gone * sources.Keys, {k} * (sources.Keys - gone), (gone + {k}) * sources.Keys);
  }

  lemma FiringsOneByOne(t: Tables, u: Tables, gone: set<NodeKey>, k: NodeKey)
    requires k !in gone && u.chunks == t.chunks - ChunksOf(t, gone) && u.sources == t.sources - gone
    ensures Firings(t, gone + {k}) == Firings(t, gone) + Firings(u, {k})
  {
    OwnedChunksSplit(t, u, gone, k);
    DisjointUnion(ChunksOf(t, gone), ChunksOf(u, {k}), ChunksOf(t, gone + {k}));
    KeysSplit(t.sources, gone, k);
  }

  lemma EmbeddingsTwice(m: map<EmbeddingKey, Embedding>, a: set<ChunkKey>, b: set<ChunkKey>)
    ensures WithoutEmbeddings(WithoutEmbeddings(m, a), b) == WithoutEmbeddings(m, a + b)
  {
  }

  lemma PiecesOneByOne(t: Tables, u: Tables, v: Tables, w: Tables, repo: string, gone: set<NodeKey>, k: NodeKey)
    requires k !in gone
    requires ContentDeleted(t, repo, gone, u) && ContentDeleted(u, repo, {k}, v) && ContentDeleted(t, repo, gone + {k}, w)
    ensures v.chunks == w.chunks && v.embeddings == w.embeddings
  {
    OwnedChunksSplit(t, u, gone, k);
    MinusTwice(t.chunks, ChunksOf(t, gone), ChunksOf(u, {k}));
    EmbeddingsTwice(t.embeddings, ChunksOf(t, gone), ChunksOf(u, {k}));
  }

  lemma NodesOneByOne(t: Tables, repo: string, gone: set<NodeKey>, k: NodeKey)
    requires k !in gone
    ensures DeleteNodes(DeleteNodes(t, repo, gone), repo, {k}) == DeleteNodes(t, repo, gone + {k})
  {
    var u, w := DeleteNodes(t, repo, gone), DeleteNodes(t, repo, gone + {k});
    var v := DeleteNodes(u, repo, {k});
    DeletionOf(t, repo, gone);
    DeletionOf(u, repo, {k});
    DeletionOf(t, repo, gone + {k});
    RowsOneByOne(t, u, v, w, gone, k);
    LooseOneByOne(t, u, v, w, gone, k);
    PiecesOneByOne(t, u, v, w, repo, gone, k);
    FiringsOneByOne(t, u, gone, k);
    BumpTwice(t.generations, repo, Firings(t, gone), Firings(u, {k}), Firings(t, gone + {k}));
    SameTables(v, w);
  }

  // ---- transactions ----

  /** ok says whether the statements ws all succeeded from t; if they did, u is what they left. */
  ghost predicate Ran(t: Tables, ws: seq<Write>, ok: bool, u: Tables) {
    if ok then ExecAll(t, ws) == Some(u) else ExecAll(t, ws) == None
  }

  lemma RanOn(t: Tables, a: seq<Write>, u: Tables, b: seq<Write>, ok: bool, v: Tables)
    requires Ran(t, a, true, u) && Ran(u, b, ok, v)
    ensures Ran(t, a + b, ok, v)
  {
    ExecAllConcat(t, a, b);
  }

  lemma RanOut(t: Tables, a: seq<Write>, b: seq<Write>, u: Tables)
    requires Ran(t, a, false, u)
    ensures Ran(t, a + b, false, u)
  {
    ExecAllConcat(t, a, b);
  }

  lemma RanOne(t: Tables, w: Write, ok: bool, u: Tables)
    requires if ok then Exec(t, w) == Some(u) else Exec(t, w) == None
    ensures Ran(t, [w], ok, u)
  {
    assert [w][1..] == [];
    assert ok ==> ExecAll(u, []) == Some(u);
  }

  lemma WantedOnward(wanted: map<string, string>, ps: seq<Piece>, i: nat)
    requires i < |ps|
    ensures wanted[ps[i].id := ps[i].row.hash] + Wanted(ps[i + 1..]) == wanted + Wanted(ps[i..])
  {
    assert ps[i..][0] == ps[i] && ps[i..][1..] == ps[i + 1..];
    PlusOne(wanted, ps[i].id, ps[i].row.hash);
    PlusAssociates(wanted, map[ps[i].id := ps[i].row.hash], Wanted(ps[i + 1..]));
  }

  class SqlStore {
    const useFts: bool
    const fingerprint: Fingerprint
    var tables: Tables

    constructor (useFts: bool, fingerprint: Fingerprint, tables: Tables)
      ensures this.useFts == useFts && this.fingerprint == fingerprint && this.tables == tables
    {
      this.useFts, this.fingerprint, this.tables := useFts, fingerprint, tables;
    }

    method ExecTx(w: Write) returns (ok: bool)
      modifies this
      ensures ok == Exec(old(tables), w).Some?
      ensures tables == if ok then Exec(old(tables), w).value else old(tables)
    {
      var result := Exec(tables, w);
      ok := result.Some?;
      if ok { tables := result.value; }
    }

    /** for _, x := range xs: execute the statement of x, stopping at the first failure. */
    method ExecEach(ws: seq<Write>) returns (ok: bool)
      modifies this
      ensures Ran(old(tables), ws, ok, tables)
    {
      var i := 0;
      while i < |ws|
        invariant 0 <= i <= |ws|
        invariant ExecAll(old(tables), ws) == ExecAll(tables, ws[i..])
      {
        assert ws[i..][0] == ws[i] && ws[i..][1..] == ws[i + 1..];
        ok := ExecTx(ws[i]);
        if !ok { return; }
        i := i + 1;
      }
      ok := true;
    }

    method WantedHashes(ps: seq<Piece>) returns (wanted: map<string, string>)
      ensures wanted == Wanted(ps)
    {
      wanted := map[];
      var i := 0;
      while i < |ps|
        invariant 0 <= i <= |ps|
        invariant wanted + Wanted(ps[i..]) == Wanted(ps)
      {
        WantedOnward(wanted, ps, i);
        wanted := wanted[ps[i].id := ps[i].row.hash];
        i := i + 1;
      }
    }

    method KeepSet(ids: seq<string>) returns (keep: set<string>)
      ensures keep == Keep(ids)
    {
      keep := {};
      var i := 0;
      while i < |ids|
        invariant 0 <= i <= |ids|
        invariant keep == Keep(ids[..i])
      {
        if ids[i] != "" { keep := keep + {ids[i]}; }
        i := i + 1;
      }
      assert ids[..i] == ids;
    }

    /** DELETE FROM chunks, one id at a time. */
    method DeleteEachChunk(repo: string, stale: set<ChunkKey>)
      modifies this
      ensures tables == DeleteChunks(old(tables), repo, stale)
    {
      var done, rest := {}, stale;
      DeleteNoChunks(tables, repo);
      while rest != {}
        invariant done + rest == stale && done !! rest
        invariant tables == DeleteChunks(old(tables), repo, done)
      {
        var c :| c in rest;
        MoveOver(done, rest, stale, c);
        ChunksOneByOne(old(tables), repo, done, c);
        tables := DeleteChunks(tables, repo, {c});
        done, rest := done + {c}, rest - {c};
      }
      assert done == stale;
    }

    /** DELETE FROM fts_index, records and sources, one id at a time. */
    method DeleteEachNode(repo: string, stale: set<NodeKey>)
      modifies this
      ensures tables == DeleteNodes(old(tables), repo, stale)
    {
      var done, rest := {}, stale;
      DeleteNoNodes(tables, repo);
      while rest != {}
        invariant done + rest == stale && done !! rest
        invariant tables == DeleteNodes(old(tables), repo, done)
      {
        var k :| k in rest;
        MoveOver(done, rest, stale, k);
        NodesOneByOne(old(tables), repo, done, k);
        tables := DeleteNodes(tables, repo, {k});
        done, rest := done + {k}, rest - {k};
      }
      assert done == stale;
    }

    /** Reads the source's chunks, then deletes those whose id or hash is not wanted. */
    method ReconcileSourceChunks(k: NodeKey, ps: seq<Piece>)
      modifies this
      ensures Exec(old(tables), TrimChunks(k, Wanted(ps))) == Some(tables)
      ensures forall c: ChunkKey :: c in tables.chunks <==>
                c in old(tables).chunks
                && (c.repo == k.repo && old(tables).chunks[c].source == k.id ==> Asked(ps, c.id, old(tables).chunks[c].hash))
    {
      var wanted := WantedHashes(ps);
      DeleteEachChunk(k.repo, StaleChunks(tables, k, wanted));
      TrimChunksIsExact(old(tables), k, Wanted(ps));
      forall c: ChunkKey | c in old(tables).chunks
        ensures (c.id in Wanted(ps) && Wanted(ps)[c.id] == old(tables).chunks[c].hash) <==> Asked(ps, c.id, old(tables).chunks[c].hash)
      {
        WantedIsAsked(ps, c.id, old(tables).chunks[c].hash);
      }
    }

    /** Collects the children that are not kept, then deletes them. */
    method ReconcileChildSources(r: Reconciliation)
      modifies this
      ensures Exec(old(tables), DropStaleChildren(r.repo, r.parent, r.kind, Keep(r.keep))) == Some(tables)
      ensures forall k: NodeKey :: k in tables.sources <==>
                && k in old(tables).sources
                && (k.repo == r.repo && old(tables).sources[k].kind == r.kind
                    && (exists text: string :: Link(r.repo, k.id, r.parent, "parent", text) in old(tables).links)
                    ==> k.id in r.keep && k.id != "")
    {
      DropStaleChildrenIsExact(tables, r.repo, r.parent, r.kind, Keep(r.keep));
      var keep := KeepSet(r.keep);
      DeleteEachNode(r.repo, StaleChildren(tables, r.repo, r.parent, r.kind, keep));
    }

    method DeleteLiveNodes(repo: string)
      modifies this
      ensures Exec(old(tables), DropLive(repo)) == Some(tables) && tables.repos == old(tables).repos
    {
      DeleteEachNode(repo, LiveNodes(tables, repo));
    }

    /** Forgets a repository's live content: provider records, live sources and the traversal frontiers. */
    method ResetLive(repo: string) returns (ok: bool)
      modifies this
      ensures Ran(old(tables), [RequireRepo(repo)] + [DropLive(repo)] + [DropFrontiers(repo)], ok, tables)
      ensures ok == (repo in old(tables).repos) && (ok || tables == old(tables))
      ensures ok ==> Forgotten(old(tables), tables, repo)
    {
      ok := ExecTx(RequireRepo(repo));
      RanOne(old(tables), RequireRepo(repo), ok, tables);
      if !ok {
        RanOut(old(tables), [RequireRepo(repo)], [DropLive(repo)], tables);
        RanOut(old(tables), [RequireRepo(repo)] + [DropLive(repo)], [DropFrontiers(repo)], tables);
        return;
      }
      ghost var start := tables;
      DeleteLiveNodes(repo);
      ghost var mid := tables;
      RanOne(start, DropLive(repo), true, mid);
      RanOn(old(tables), [RequireRepo(repo)], start, [DropLive(repo)], true, mid);
      ok := ExecTx(DropFrontiers(repo));
      RanOne(mid, DropFrontiers(repo), ok, tables);
      RanOn(old(tables), [RequireRepo(repo)] + [DropLive(repo)], mid, [DropFrontiers(repo)], ok, tables);
      assert start == old(tables);
      ResetForgets(start, repo, mid, tables);
    }

    method UpsertSyncGraph(g: SyncGraph) returns (ok: bool)
      modifies this
      ensures Ran(old(tables), GraphWrites(useFts, fingerprint, g), ok, tables)
      ensures ok ==> GraphShown(useFts, fingerprint, old(tables), tables, g)
    {
      ok := ExecGraph(g);
      if ok { PublishedGraphIsShown(useFts, fingerprint, old(tables), g, tables); }
    }

    method ExecGraph(g: SyncGraph) returns (ok: bool)
      modifies this
      ensures Ran(old(tables), GraphWrites(useFts, fingerprint, g), ok, tables)
    {
      if GraphRepo(g) == "" { return false; }
      var nodes, attachments := NodeWrites(useFts, g), AttachmentWrites(g);
      ok := ExecEach(nodes + attachments);
      if !ok { RanOut(old(tables), nodes + attachments, ChunkWrites(fingerprint, g), tables); return; }
      ghost var mid := tables;
      ok := StoreGraphChunks(g);
      RanOn(old(tables), nodes + attachments, mid, ChunkWrites(fingerprint, g), ok, tables);
    }

    method StoreGraphChunks(g: SyncGraph) returns (ok: bool)
      modifies this
      ensures Ran(old(tables), ChunkWrites(fingerprint, g), ok, tables)
    {
      var pieces := StorePieces(fingerprint, Node(g), g.chunks);
      if !g.replaceChunks {
        assert ChunkWrites(fingerprint, g) == pieces;
        ok := ExecEach(pieces);
        return;
      }
      var trim := TrimChunks(Node(g), Wanted(g.chunks));
      ReconcileSourceChunks(Node(g), g.chunks);
      ghost var mid := tables;
      RanOne(old(tables), trim, true, mid);
      ok := ExecEach(pieces);
      RanOn(old(tables), [trim], mid, pieces, ok, tables);
    }

    method UpsertGraphs(graphs: seq<SyncGraph>) returns (ok: bool)
      modifies this
      ensures Ran(old(tables), Concat(Each(g => GraphWrites(useFts, fingerprint, g), graphs)), ok, tables)
    {
      ghost var parts := Each(g => GraphWrites(useFts, fingerprint, g), graphs);
      var i := 0;
      while i < |graphs|
        invariant 0 <= i <= |graphs|
        invariant ExecAll(old(tables), Concat(parts)) == ExecAll(tables, Concat(parts[i..]))
      {
        ghost var before := tables;
        ok := UpsertSyncGraph(graphs[i]);
        assert parts[i..][0] == GraphWrites(useFts, fingerprint, graphs[i]) && parts[i..][1..] == parts[i + 1..];
        ExecAllConcat(before, parts[i..][0], Concat(parts[i + 1..]));
        if !ok { return; }
        i := i + 1;
      }
      ok := true;
    }

    method ReplaceComments(replaced: seq<CommentsReplacement>) returns (ok: bool)
      modifies this
      ensures Ran(old(tables), Concat(Each(r => ReplacementWrites(r), replaced)), ok, tables)
    {
      ghost var parts := Each(r => ReplacementWrites(r), replaced);
      var i := 0;
      while i < |replaced|
        invariant 0 <= i <= |replaced|
        invariant ExecAll(old(tables), Concat(parts)) == ExecAll(tables, Concat(parts[i..]))
      {
        ghost var before := tables;
        ok := ExecEach(ReplacementWrites(replaced[i]));
        assert parts[i..][0] == ReplacementWrites(replaced[i]) && parts[i..][1..] == parts[i + 1..];
        ExecAllConcat(before, parts[i..][0], Concat(parts[i + 1..]));
        if !ok { return; }
        i := i + 1;
      }
      ok := true;
    }

    method ReconcileChildren(rs: seq<Reconciliation>, ghost b: Batch)
      requires rs == b.reconciled
      modifies this
      ensures ExecAll(old(tables), Reconciled(b)) == Some(tables)
    {
      ghost var ws := Reconciled(b);
      var i := 0;
      while i < |rs|
        invariant 0 <= i <= |rs|
        invariant ExecAll(old(tables), ws) == ExecAll(tables, ws[i..])
      {
        assert ws[i..][0] == ws[i] && ws[i..][1..] == ws[i + 1..];
        ReconcileChildSources(rs[i]);
        i := i + 1;
      }
    }

    /** Everything of the batch that comes before the reconciliation of children. */
    method PublishBatch(b: Batch, now: string) returns (ok: bool)
      modifies this
      ensures Ran(old(tables), Published(useFts, fingerprint, now, b), ok, tables)
    {
      ghost var graphs := Concat(Each(g => GraphWrites(useFts, fingerprint, g), b.graphs));
      ghost var replacements := Concat(Each(r => ReplacementWrites(r), b.replaced));
      var rows := Each(i => CommentSyncWrite(now, i), b.commentSyncs) + Each(k => ClearComments(k), b.cleared);
      assert Published(useFts, fingerprint, now, b) == graphs + rows + replacements;
      ok := UpsertGraphs(b.graphs);
      if !ok {
        RanOut(old(tables), graphs, rows, tables);
        RanOut(old(tables), graphs + rows, replacements, tables);
        return;
      }
      ghost var first := tables;
      ok := ExecEach(rows);
      RanOn(old(tables), graphs, first, rows, ok, tables);
      if !ok {
        RanOut(old(tables), graphs + rows, replacements, tables);
        return;
      }
      ghost var second := tables;
      ok := ReplaceComments(b.replaced);
      RanOn(old(tables), graphs + rows, second, replacements, ok, tables);
    }

    /** Publishes a batch with its traversal frontier in one transaction, or leaves the tables as they were. */
    method CommitSyncBatch(b: Batch, now: string) returns (ok: bool)
      modifies this
      ensures ok == ExecAll(old(tables), BatchWrites(useFts, fingerprint, now, b)).Some?
      ensures tables == Committed(old(tables), BatchWrites(useFts, fingerprint, now, b))
      ensures if ok then BatchShown(useFts, now, old(tables), tables, b) else tables == old(tables)
    {
      ok := ExecBatch(b, now);
      if ok { CommittedBatchIsShown(useFts, fingerprint, now, old(tables), b, tables); }
    }

    method ExecBatch(b: Batch, now: string) returns (ok: bool)
      modifies this
      ensures ok == ExecAll(old(tables), BatchWrites(useFts, fingerprint, now, b)).Some?
      ensures tables == Committed(old(tables), BatchWrites(useFts, fingerprint, now, b))
    {
      ghost var published, reconciled, checkpoint := Published(useFts, fingerprint, now, b), Reconciled(b), Checkpoint(now, b);
      assert BatchWrites(useFts, fingerprint, now, b) == published + reconciled + checkpoint;
      var saved := tables;
      ok := PublishBatch(b, now);
      if !ok {
        RanOut(saved, published, reconciled, tables);
        RanOut(saved, published + reconciled, checkpoint, tables);
        tables := saved;
        return;
      }
      ghost var first := tables;
      ReconcileChildren(b.reconciled, b);
      RanOn(saved, published, first, reconciled, true, tables);
      ghost var second := tables;
      ok := ExecEach(Checkpoint(now, b));
      RanOn(saved, published + reconciled, second, checkpoint, ok, tables);
      if !ok { tables := saved; }
    }
  }
}
