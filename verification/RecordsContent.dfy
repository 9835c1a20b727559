/** What every statement of the record store keeps: foreign keys, and a content generation that changes
    whenever a source or chunk appears, disappears or changes its hash. */
module RecordsContent {
  import opened Wrappers
  import opened Collections
  import opened Records

  // ---- the statements, by what they write ----

  predicate WritesRows(w: Write) { w.PutSearch? || w.PutRecord? || w.PutComment? || w.ClearComments? || w.PutConfirmation? }

  predicate Attaches(w: Write) { w.PutIdentity? || w.PutLink? || w.DropLinks? || w.PutRevision? || w.PutCommentSync? }

  predicate WritesContent(w: Write) { w.PutSource? || w.PutChunk? || w.TrimChunks? || w.DropStaleChildren? || w.DropLive? }

  // ---- foreign keys ----

  lemma DeleteNodesKeepsReferences(t: Tables, repo: string, gone: set<NodeKey>)
    requires Referential(t)
    ensures Referential(DeleteNodes(t, repo, gone))
  {
  }

  lemma DeleteChunksKeepsReferences(t: Tables, repo: string, gone: set<ChunkKey>)
    requires Referential(t)
    ensures Referential(DeleteChunks(t, repo, gone))
  {
  }

  lemma UpsertSourceKeepsReferences(t: Tables, k: NodeKey, row: Source)
    requires Referential(t) && UpsertSource(t, k, row).Some?
    ensures Referential(UpsertSource(t, k, row).value)
  {
  }

  lemma UpsertRecordKeepsReferences(t: Tables, k: NodeKey, row: Record)
    requires Referential(t) && UpsertRecord(t, k, row).Some?
    ensures Referential(UpsertRecord(t, k, row).value)
  {
  }

  lemma UpsertChunkKeepsReferences(t: Tables, k: ChunkKey, row: Chunk)
    requires Referential(t) && UpsertChunk(t, k, row).Some?
    ensures Referential(UpsertChunk(t, k, row).value)
  {
  }

  lemma RowKeepsReferences(t: Tables, w: Write)
    requires Referential(t) && Exec(t, w).Some? && WritesRows(w) && !w.PutRecord?
    ensures Referential(Exec(t, w).value)
  {
  }

  lemma LinkKeepsReferences(t: Tables, w: Write)
    requires Referential(t) && Exec(t, w).Some? && (w.PutLink? || w.DropLinks?)
    ensures Referential(Exec(t, w).value)
  {
  }

  lemma AttachmentKeepsReferences(t: Tables, w: Write)
    requires Referential(t) && Exec(t, w).Some? && (w.PutIdentity? || w.PutRevision? || w.PutCommentSync?)
    ensures Referential(Exec(t, w).value)
  {
  }

  lemma TrimKeepsReferences(t: Tables, w: Write)
    requires Referential(t) && w.TrimChunks?
    ensures Referential(Exec(t, w).value)
  {
    DeleteChunksKeepsReferences(t, w.node.repo, StaleChunks(t, w.node, w.wanted));
  }

  lemma ReconciliationKeepsReferences(t: Tables, w: Write)
    requires Referential(t) && w.DropStaleChildren?
    ensures Referential(Exec(t, w).value)
  {
    DeleteNodesKeepsReferences(t, w.repo, StaleChildren(t, w.repo, w.parent, w.kind, w.keep));
  }

  lemma ResetKeepsReferences(t: Tables, w: Write)
    requires Referential(t) && w.DropLive?
    ensures Referential(Exec(t, w).value)
  {
    DeleteNodesKeepsReferences(t, w.repo, LiveNodes(t, w.repo));
  }

  lemma OtherKeepsReferences(t: Tables, w: Write)
    requires Referential(t) && Exec(t, w).Some? && !WritesRows(w) && !Attaches(w) && !WritesContent(w)
    ensures Referential(Exec(t, w).value)
  {
  }

  lemma ExecKeepsReferences(t: Tables, w: Write)
    requires Referential(t) && Exec(t, w).Some?
    ensures Referential(Exec(t, w).value)
  {
    if w.PutSource? {
      UpsertSourceKeepsReferences(t, w.node, w.source);
    } else if w.PutRecord? {
      UpsertRecordKeepsReferences(t, w.node, w.record);
    } else if w.PutChunk? {
      UpsertChunkKeepsReferences(t, w.chunk, w.piece);
    } else if w.TrimChunks? {
      TrimKeepsReferences(t, w);
    } else if w.DropStaleChildren? {
      ReconciliationKeepsReferences(t, w);
    } else if w.DropLive? {
      ResetKeepsReferences(t, w);
    } else if WritesRows(w) {
      RowKeepsReferences(t, w);
    } else if w.PutLink? || w.DropLinks? {
      LinkKeepsReferences(t, w);
    } else if Attaches(w) {
      AttachmentKeepsReferences(t, w);
    } else {
      OtherKeepsReferences(t, w);
    }
  }

  /** No transaction leaves a dangling reference. */
  lemma {:induction false} ExecAllKeepsReferences(t: Tables, ws: seq<Write>)
    requires Referential(t) && ExecAll(t, ws).Some?
    ensures Referential(ExecAll(t, ws).value)
    decreases |ws|
  {
    if ws != [] {
      ExecKeepsReferences(t, ws[0]);
      ExecAllKeepsReferences(Exec(t, ws[0]).value, ws[1..]);
    }
  }

  // ---- content generation ----

  ghost predicate SameSources(a: map<NodeKey, Source>, b: map<NodeKey, Source>, repo: string) {
    && (forall k: NodeKey | k.repo == repo :: k in a <==> k in b)
    && (forall k | k in a && k in b && k.repo == repo :: a[k].hash == b[k].hash)
  }

  ghost predicate SameChunks(a: map<ChunkKey, Chunk>, b: map<ChunkKey, Chunk>, repo: string) {
    && (forall c: ChunkKey | c.repo == repo :: c in a <==> c in b)
    && (forall c | c in a && c in b && c.repo == repo :: a[c].hash == b[c].hash)
  }

  /** The sources and chunks of a repository have the same ids and content hashes. */
  ghost predicate SameContent(t: Tables, u: Tables, repo: string) {
    SameSources(t.sources, u.sources, repo) && SameChunks(t.chunks, u.chunks, repo)
  }

  ghost predicate Stamped(t: Tables, u: Tables, repo: string) {
    && Generation(t, repo) <= Generation(u, repo)
    && (Generation(t, repo) == Generation(u, repo) ==> SameContent(t, u, repo))
  }

  lemma StampedTransitive(t: Tables, u: Tables, v: Tables, repo: string)
    requires Stamped(t, u, repo) && Stamped(u, v, repo)
    ensures Stamped(t, v, repo)
  {
  }

  lemma BumpGrows(g: map<string, nat>, r: string, n: nat, repo: string)
    ensures GenerationIn(Bump(g, r, n), repo) == GenerationIn(g, repo) + if r == repo then n else 0
  {
  }

  lemma WithoutOtherSources(sources: map<NodeKey, Source>, gone: set<NodeKey>, repo: string)
    requires forall k | k in gone && k in sources :: k.repo != repo
    ensures SameSources(sources, sources - gone, repo)
  {
  }

  lemma WithoutOtherChunks(chunks: map<ChunkKey, Chunk>, gone: set<ChunkKey>, repo: string)
    requires forall c | c in gone && c in chunks :: c.repo != repo
    ensures SameChunks(chunks, chunks - gone, repo)
  {
  }

  /** Every removed row fires its trigger. */
  lemma RemovalStamps(t: Tables, u: Tables, r: string, gone: set<NodeKey>, pieces: set<ChunkKey>, n: nat, repo: string)
    requires forall k | k in gone && k in t.sources :: k.repo == r && n > 0
    requires forall c | c in pieces && c in t.chunks :: c.repo == r && n > 0
    requires u.sources == t.sources - gone && u.chunks == t.chunks - pieces
    requires u.generations == Bump(t.generations, r, n)
    ensures Stamped(t, u, repo)
  {
    BumpGrows(t.generations, r, n, repo);
    if r != repo || n == 0 {
      WithoutOtherSources(t.sources, gone, repo);
      WithoutOtherChunks(t.chunks, pieces, repo);
    }
  }

  lemma TrimStamps(t: Tables, k: NodeKey, wanted: map<string, string>, repo: string)
    ensures Stamped(t, DeleteChunks(t, k.repo, StaleChunks(t, k, wanted)), repo)
  {
    var pieces := StaleChunks(t, k, wanted);
    MembersCount(pieces);
    assert t.sources - {} == t.sources;
    RemovalStamps(t, DeleteChunks(t, k.repo, pieces), k.repo, {}, pieces, |pieces|, repo);
  }

  lemma RemovalFires(t: Tables, gone: set<NodeKey>)
    ensures forall k | k in gone && k in t.sources :: Firings(t, gone) > 0
    ensures forall c | c in ChunksOf(t, gone) :: Firings(t, gone) > 0
  {
    MembersCount(gone * t.sources.Keys);
    MembersCount(ChunksOf(t, gone));
    assert forall k | k in gone && k in t.sources :: k in gone * t.sources.Keys;
  }

  lemma DeleteNodesStamps(t: Tables, r: string, gone: set<NodeKey>, repo: string)
    requires forall k | k in gone :: k.repo == r
    ensures Stamped(t, DeleteNodes(t, r, gone), repo)
  {
    RemovalFires(t, gone);
    RemovalStamps(t, DeleteNodes(t, r, gone), r, gone, ChunksOf(t, gone), Firings(t, gone), repo);
  }

  lemma UpsertSourceStamps(t: Tables, k: NodeKey, row: Source, repo: string)
    requires UpsertSource(t, k, row).Some?
    ensures Stamped(t, UpsertSource(t, k, row).value, repo)
  {
  }

  lemma UpsertChunkStamps(t: Tables, k: ChunkKey, row: Chunk, repo: string)
    requires UpsertChunk(t, k, row).Some?
    ensures Stamped(t, UpsertChunk(t, k, row).value, repo)
  {
  }

  lemma ReconciliationStamps(t: Tables, r: string, parent: string, kind: string, keep: set<string>, repo: string)
    ensures Stamped(t, DeleteNodes(t, r, StaleChildren(t, r, parent, kind, keep)), repo)
  {
    DeleteNodesStamps(t, r, StaleChildren(t, r, parent, kind, keep), repo);
  }

  lemma ResetStamps(t: Tables, r: string, repo: string)
    ensures Stamped(t, DeleteNodes(t, r, LiveNodes(t, r)), repo)
  {
    DeleteNodesStamps(t, r, LiveNodes(t, r), repo);
  }

  ghost predicate ContentUntouched(t: Tables, u: Tables) {
    u.sources == t.sources && u.chunks == t.chunks && u.embeddings == t.embeddings && u.generations == t.generations
  }

  lemma UntouchedStamps(t: Tables, u: Tables, repo: string)
    requires ContentUntouched(t, u)
    ensures Stamped(t, u, repo)
  {
  }

  lemma RowSparesContent(t: Tables, w: Write)
    requires Exec(t, w).Some? && WritesRows(w)
    ensures ContentUntouched(t, Exec(t, w).value)
  {
  }

  lemma AttachmentSparesContent(t: Tables, w: Write)
    requires Exec(t, w).Some? && Attaches(w)
    ensures ContentUntouched(t, Exec(t, w).value)
  {
  }

  lemma OtherSparesContent(t: Tables, w: Write)
    requires Exec(t, w).Some? && !WritesRows(w) && !Attaches(w) && !WritesContent(w)
    ensures ContentUntouched(t, Exec(t, w).value)
  {
  }

  lemma ContentSpared(t: Tables, w: Write)
    requires Exec(t, w).Some? && !WritesContent(w)
    ensures ContentUntouched(t, Exec(t, w).value)
  {
    if WritesRows(w) {
      RowSparesContent(t, w);
    } else if Attaches(w) {
      AttachmentSparesContent(t, w);
    } else {
      OtherSparesContent(t, w);
    }
  }

  lemma SourceWriteStamps(t: Tables, w: Write, repo: string)
    requires Exec(t, w).Some? && w.PutSource?
    ensures Stamped(t, Exec(t, w).value, repo)
  {
    UpsertSourceStamps(t, w.node, w.source, repo);
  }

  lemma ChunkWriteStamps(t: Tables, w: Write, repo: string)
    requires Exec(t, w).Some? && w.PutChunk?
    ensures Stamped(t, Exec(t, w).value, repo)
  {
    UpsertChunkStamps(t, w.chunk, w.piece, repo);
  }

  lemma TrimWriteStamps(t: Tables, w: Write, repo: string)
    requires w.TrimChunks?
    ensures Stamped(t, Exec(t, w).value, repo)
  {
    TrimStamps(t, w.node, w.wanted, repo);
  }

  lemma ReconciliationWriteStamps(t: Tables, w: Write, repo: string)
    requires w.DropStaleChildren?
    ensures Stamped(t, Exec(t, w).value, repo)
  {
    ReconciliationStamps(t, w.repo, w.parent, w.kind, w.keep, repo);
  }

  lemma ResetWriteStamps(t: Tables, w: Write, repo: string)
    requires w.DropLive?
    ensures Stamped(t, Exec(t, w).value, repo)
  {
    ResetStamps(t, w.repo, repo);
  }

  /** Every statement that changes content raises the generation, and none lowers it. */
  lemma ExecStamps(t: Tables, w: Write, repo: string)
    requires Exec(t, w).Some?
    ensures Stamped(t, Exec(t, w).value, repo)
  {
    if w.PutSource? {
      SourceWriteStamps(t, w, repo);
    } else if w.PutChunk? {
      ChunkWriteStamps(t, w, repo);
    } else if w.TrimChunks? {
      TrimWriteStamps(t, w, repo);
    } else if w.DropStaleChildren? {
      ReconciliationWriteStamps(t, w, repo);
    } else if w.DropLive? {
      ResetWriteStamps(t, w, repo);
    } else {
      ContentSpared(t, w);
      UntouchedStamps(t, Exec(t, w).value, repo);
    }
  }

  lemma {:induction false} ExecAllStamps(t: Tables, ws: seq<Write>, repo: string)
    requires ExecAll(t, ws).Some?
    ensures Stamped(t, ExecAll(t, ws).value, repo)
    decreases |ws|
  {
    if ws != [] {
      ExecStamps(t, ws[0], repo);
      ExecAllStamps(Exec(t, ws[0]).value, ws[1..], repo);
      StampedTransitive(t, Exec(t, ws[0]).value, ExecAll(t, ws).value, repo);
    }
  }

  /** The stamp is one-directional: a hash changed and changed back leaves the content as it was, two generations on. */
  lemma ChangedBackIsNewGeneration(t: Tables, k: NodeKey, row: Source, other: string)
    requires k in t.sources && t.sources[k] == row && k.repo in t.repos && row.provenance.Live? && other != row.hash
    ensures var mid := UpsertSource(t, k, row.(hash := other)).value;
            var u := UpsertSource(mid, k, row).value;
            SameContent(t, u, k.repo) && Generation(u, k.repo) == Generation(t, k.repo) + 2
  {
  }
}
