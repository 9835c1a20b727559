/** The smallest batch that is not replayed exactly although it survives: one record with one chunk without an id. */
module SyncUnnamedPiece {
  import opened Wrappers
  import opened Collections
  import opened Text
  import opened Records
  import opened RecordsContent
  import opened RecordsChunks
  import opened SyncBatch
  import opened SyncReplay
  import opened SyncStatements
  import opened SyncTrimming

  /** One record with one chunk, which has no id, to replace whatever chunks it had. */
  function LoneGraph(k: NodeKey, row: Record, chunk: Chunk): SyncGraph {
    SyncGraph("", Unset, RecordInput(k.repo, k.id, row), [], [], [], [], true, [Piece("", "", chunk)])
  }

  function LoneBatch(k: NodeKey, row: Record, chunk: Chunk): Batch {
    Batch([LoneGraph(k, row, chunk)], [], [], [], [], None, None, None)
  }

  function LoneKey(fingerprint: Fingerprint, k: NodeKey, chunk: Chunk): ChunkKey {
    ChunkKey(k.repo, fingerprint(k.id, chunk.hash, chunk.byteStart))
  }

  lemma LoneNode(k: NodeKey, row: Record, chunk: Chunk)
    requires k.repo != ""
    ensures var g := LoneGraph(k, row, chunk);
            Node(g) == k && GraphRepo(g) == k.repo && StoredSource(g).provenance.Fixture? && Wanted(g.chunks) == map["" := chunk.hash]
  {
    assert TrimSpace("") == "";
    assert Wanted(LoneGraph(k, row, chunk).chunks[1..]) == map[];
  }

  lemma LoneChunkWrites(fingerprint: Fingerprint, k: NodeKey, row: Record, chunk: Chunk)
    requires k.repo != "" && chunk.source == ""
    ensures ChunkWrites(fingerprint, LoneGraph(k, row, chunk))
            == [TrimChunks(k, map["" := chunk.hash])] + [PutChunk(LoneKey(fingerprint, k, chunk), StoredPiece(k, Piece("", "", chunk)))]
  {
    var ps := [Piece("", "", chunk)];
    LoneNode(k, row, chunk);
    assert StorePieces(fingerprint, k, ps) == [PutChunk(LoneKey(fingerprint, k, chunk), StoredPiece(k, ps[0]))];
  }

  lemma NothingAttached(g: SyncGraph)
    requires g.comments == [] && g.identities == [] && g.links == [] && g.revisions == []
    ensures AttachmentWrites(g) == []
  {
  }

  lemma GraphsOnly(fts: bool, fingerprint: Fingerprint, now: string, g: SyncGraph)
    ensures BatchWrites(fts, fingerprint, now, Batch([g], [], [], [], [], None, None, None)) == GraphWrites(fts, fingerprint, g)
  {
    var parts := Each(g => GraphWrites(fts, fingerprint, g), [g]);
    assert parts[0] == GraphWrites(fts, fingerprint, g) && Concat(parts[1..]) == [];
  }

  lemma LoneWrites(fts: bool, fingerprint: Fingerprint, now: string, k: NodeKey, row: Record, chunk: Chunk)
    requires k.repo != "" && chunk.source == ""
    ensures BatchWrites(fts, fingerprint, now, LoneBatch(k, row, chunk))
            == NodeWrites(fts, LoneGraph(k, row, chunk)) + ChunkWrites(fingerprint, LoneGraph(k, row, chunk))
  {
    LoneNode(k, row, chunk);
    NothingAttached(LoneGraph(k, row, chunk));
    GraphsOnly(fts, fingerprint, now, LoneGraph(k, row, chunk));
  }

  /** The repository is known, and holds nothing yet but perhaps this record and chunks of its. */
  predicate Ready(t: Tables, k: NodeKey) {
    k.repo in t.repos && t.records.Keys <= {k} && forall c | c in t.chunks :: OfChunk(c, t.chunks[c]) == k && c.id != ""
  }

  lemma RootCommits(t: Tables, k: NodeKey, source: Source)
    requires Ready(t, k) && source.provenance.Fixture?
    ensures var ws := [RequireRepo(k.repo), PutSource(k, source)];
            ExecAll(t, ws).Some? && var u := ExecAll(t, ws).value; Ready(u, k) && k in u.sources && u.repos == t.repos
  {
    var u := UpsertSource(t, k, source).value;
    assert [RequireRepo(k.repo), PutSource(k, source)][1..] == [PutSource(k, source)];
    assert ExecAll(u, [PutSource(k, source)][1..]) == Some(u);
  }

  lemma SearchCommits(fts: bool, t: Tables, k: NodeKey, projection: Projection)
    requires Ready(t, k) && k in t.sources
    ensures var ws := if fts then [PutSearch(k, projection)] else [];
            ExecAll(t, ws).Some? && var u := ExecAll(t, ws).value; Ready(u, k) && k in u.sources && u.repos == t.repos
  {
    if fts {
      var u := Exec(t, PutSearch(k, projection)).value;
      assert ExecAll(u, [PutSearch(k, projection)][1..]) == Some(u);
    }
  }

  lemma RecordCommits(t: Tables, k: NodeKey, row: Record)
    requires Ready(t, k) && k in t.sources
    ensures ExecAll(t, [PutRecord(k, row)]).Some?
    ensures var u := ExecAll(t, [PutRecord(k, row)]).value; Ready(u, k) && k in u.sources && u.repos == t.repos
  {
    var u := UpsertRecord(t, k, row).value;
    assert ExecAll(u, [PutRecord(k, row)][1..]) == Some(u);
  }

  lemma EverythingIsStale(t: Tables, k: NodeKey, hash: string)
    requires Ready(t, k)
    ensures t.chunks.Keys <= StaleChunks(t, k, map["" := hash])
  {
  }

  lemma TrimEmpties(t: Tables, k: NodeKey, hash: string)
    requires Ready(t, k)
    ensures var u := DeleteChunks(t, k.repo, StaleChunks(t, k, map["" := hash]));
            u.chunks == map[] && u.sources == t.sources && u.records == t.records && u.repos == t.repos
  {
    EverythingIsStale(t, k, hash);
    MinusAll(t.chunks, StaleChunks(t, k, map["" := hash]));
  }

  lemma FirstChunk(t: Tables, c: ChunkKey, row: Chunk)
    requires t.chunks == map[] && OfChunk(c, row) in t.sources
    ensures UpsertChunk(t, c, row).Some?
    ensures var u := UpsertChunk(t, c, row).value;
            u.chunks == map[c := row] && u.sources == t.sources && u.records == t.records && u.repos == t.repos
  {
  }

  lemma ChunkCommits(t: Tables, k: NodeKey, hash: string, c: ChunkKey, row: Chunk)
    requires Ready(t, k) && k in t.sources && OfChunk(c, row) == k && c.id != ""
    ensures var ws := [TrimChunks(k, map["" := hash])] + [PutChunk(c, row)];
            ExecAll(t, ws).Some? && var u := ExecAll(t, ws).value; Ready(u, k) && u.chunks == map[c := row] && k in u.sources
  {
    var trimmed := DeleteChunks(t, k.repo, StaleChunks(t, k, map["" := hash]));
    TrimEmpties(t, k, hash);
    FirstChunk(trimmed, c, row);
    TwoCommit(t, TrimChunks(k, map["" := hash]), trimmed, PutChunk(c, row), UpsertChunk(trimmed, c, row).value);
  }

  lemma TwoCommit(t: Tables, w: Write, u: Tables, v: Write, x: Tables)
    requires Exec(t, w) == Some(u) && Exec(u, v) == Some(x)
    ensures ExecAll(t, [w] + [v]) == Some(x)
  {
    assert ([w] + [v])[1..] == [v] && [v][1..] == [];
    assert ExecAll(x, []) == Some(x);
  }

  lemma LoneBatchCommits(fts: bool, fingerprint: Fingerprint, now: string, t: Tables, k: NodeKey, row: Record, chunk: Chunk)
    requires k.repo != "" && chunk.source == "" && Ready(t, k) && LoneKey(fingerprint, k, chunk).id != ""
    ensures ExecAll(t, BatchWrites(fts, fingerprint, now, LoneBatch(k, row, chunk))).Some?
    ensures var s := ExecAll(t, BatchWrites(fts, fingerprint, now, LoneBatch(k, row, chunk))).value;
            && Ready(s, k) && k in s.sources
            && s.chunks == map[LoneKey(fingerprint, k, chunk) := StoredPiece(k, Piece("", "", chunk))]
  {
    var g := LoneGraph(k, row, chunk);
    var r, c, piece := StoredRecord(g), LoneKey(fingerprint, k, chunk), StoredPiece(k, Piece("", "", chunk));
    LoneNode(k, row, chunk);
    LoneWrites(fts, fingerprint, now, k, row, chunk);
    LoneChunkWrites(fingerprint, k, row, chunk);
    var first, second := [RequireRepo(k.repo), PutSource(k, StoredSource(g))], if fts then [PutSearch(k, Projection(r.path, r.title, r.body))] else [];
    var last := [TrimChunks(k, map["" := chunk.hash])] + [PutChunk(c, piece)];
    assert NodeWrites(fts, g) == first + second + [PutRecord(k, r)];
    RootCommits(t, k, StoredSource(g));
    var t1 := ExecAll(t, first).value;
    SearchCommits(fts, t1, k, Projection(r.path, r.title, r.body));
    var t2 := ExecAll(t1, second).value;
    RecordCommits(t2, k, r);
    var t3 := ExecAll(t2, [PutRecord(k, r)]).value;
    ChunkCommits(t3, k, chunk.hash, c, piece);
    ExecAllConcat(t, first, second);
    ExecAllConcat(t, first + second, [PutRecord(k, r)]);
    ExecAllConcat(t, NodeWrites(fts, g), last);
  }

  lemma LoneBatchIsWellFormed(fingerprint: Fingerprint, k: NodeKey, row: Record, chunk: Chunk)
    ensures WellFormed(fingerprint, LoneBatch(k, row, chunk)) && ExplicitTimes(LoneBatch(k, row, chunk))
  {
  }

  /** What the first run left is unwanted. */
  lemma LonePieceIsUnwanted(fingerprint: Fingerprint, s: Tables, k: NodeKey, row: Record, chunk: Chunk)
    requires k.repo != "" && chunk.source == "" && LoneKey(fingerprint, k, chunk).id != ""
    requires s.chunks == map[LoneKey(fingerprint, k, chunk) := StoredPiece(k, Piece("", "", chunk))]
    ensures var g, p := LoneGraph(k, row, chunk), Piece("", "", chunk);
            && Node(g) == k && PieceKey(fingerprint, k, p) == LoneKey(fingerprint, k, chunk)
            && Unwanted(fingerprint, k, g.chunks, p) && Stored(fingerprint, s, k, p)
  {
    LoneNode(k, row, chunk);
  }

  /** The batch commits and leaves its record and chunk there; once the chunk has been
      embedded, committing the batch again commits too, but deletes the embedding and raises the generation. */
  ghost predicate BreaksReplay(fts: bool, fingerprint: Fingerprint, now: string, later: string, t: Tables, b: Batch, repo: string,
                               e: EmbeddingKey, vector: Embedding) {
    && ExecAll(t, BatchWrites(fts, fingerprint, now, b)).Some?
    && var s := ExecAll(t, BatchWrites(fts, fingerprint, now, b)).value;
    && GraphsSurvived(fingerprint, b, s)
    && var embedded := s.(embeddings := s.embeddings[e := vector]);
    && ExecAll(embedded, BatchWrites(fts, fingerprint, later, b)).Some?
    && var u := ExecAll(embedded, BatchWrites(fts, fingerprint, later, b)).value;
    && e !in u.embeddings && Generation(embedded, repo) < Generation(u, repo)
  }

  lemma UnnamedPieceBreaksReplay(fts: bool, fingerprint: Fingerprint, now: string, later: string, t: Tables, k: NodeKey, row: Record,
                                 chunk: Chunk, namespace: string, vector: Embedding)
    requires Ready(t, k) && k.repo != "" && chunk.source == "" && LoneKey(fingerprint, k, chunk).id != ""
    ensures WellFormed(fingerprint, LoneBatch(k, row, chunk)) && ExplicitTimes(LoneBatch(k, row, chunk))
    ensures BreaksReplay(fts, fingerprint, now, later, t, LoneBatch(k, row, chunk), k.repo,
                         EmbeddingKey(k.repo, namespace, LoneKey(fingerprint, k, chunk).id), vector)
  {
    var b, g, p := LoneBatch(k, row, chunk), LoneGraph(k, row, chunk), Piece("", "", chunk);
    var e := EmbeddingKey(k.repo, namespace, LoneKey(fingerprint, k, chunk).id);
    LoneBatchIsWellFormed(fingerprint, k, row, chunk);
    LoneBatchCommits(fts, fingerprint, now, t, k, row, chunk);
    var s := ExecAll(t, BatchWrites(fts, fingerprint, now, b)).value;
    var embedded := s.(embeddings := s.embeddings[e := vector]);
    LoneBatchCommits(fts, fingerprint, later, embedded, k, row, chunk);
    LonePieceIsUnwanted(fingerprint, embedded, k, row, chunk);
    assert g.chunks[0] == p && b.graphs[0] == g;
    ReplayLosesEmbeddings(fts, fingerprint, later, embedded, b, ExecAll(embedded, BatchWrites(fts, fingerprint, later, b)).value, g, p, e);
  }
}
