/** What the replay of a sync batch trims: chunks that were stored under a key their own batch does not want. */
module SyncTrimming {
  import opened Wrappers
  import opened Records
  import opened RecordsContent
  import opened RecordsChunks
  import opened SyncBatch
  import opened SyncReplay
  import opened SyncIdempotence
  import opened SyncStatements

  /** Pieces name the repository and the source of their graph, or leave them out. */
  predicate OwnPieces(b: Batch) {
    forall g, p | g in b.graphs && p in g.chunks :: p.repo in {"", GraphRepo(g)} && p.row.source in {"", g.record.id}
  }

  /** A digest is never empty. */
  ghost predicate Names(fingerprint: Fingerprint) {
    forall source, hash, start :: fingerprint(source, hash, start) != ""
  }

  ghost predicate IsKey(fingerprint: Fingerprint, g: SyncGraph, c: ChunkKey) {
    exists p :: p in g.chunks && PieceKey(fingerprint, Node(g), p) == c
  }

  lemma OwnPiece(fingerprint: Fingerprint, b: Batch, g: SyncGraph, p: Piece)
    requires OwnPieces(b) && g in b.graphs && p in g.chunks
    ensures PieceKey(fingerprint, Node(g), p).repo == GraphRepo(g) && StoredPiece(Node(g), p).source == g.record.id
    ensures p.id != "" ==> PieceKey(fingerprint, Node(g), p) == ChunkKey(GraphRepo(g), p.id)
  {
  }

  // ---- what a graph wants ----

  lemma {:induction false} WantedIds(ps: seq<Piece>, id: string)
    ensures id in Wanted(ps) <==> exists p :: p in ps && p.id == id
    decreases |ps|
  {
    if ps != [] {
      WantedIds(ps[1..], id);
      assert forall p :: p in ps <==> p == ps[0] || p in ps[1..];
    }
  }

  lemma {:induction false} WantedHash(ps: seq<Piece>, id: string, hash: string)
    requires id in Wanted(ps) && forall p | p in ps && p.id == id :: p.row.hash == hash
    ensures Wanted(ps)[id] == hash
    decreases |ps|
  {
    if id in Wanted(ps[1..]) {
      WantedHash(ps[1..], id, hash);
    } else {
      assert ps[0] in ps;
    }
  }

  lemma SameIdSameHash(fingerprint: Fingerprint, b: Batch, g: SyncGraph, p: Piece, q: Piece)
    requires WellFormed(fingerprint, b) && OwnPieces(b) && Names(fingerprint)
    requires g in b.graphs && p in g.chunks && q in g.chunks && q.id == PieceKey(fingerprint, Node(g), p).id
    ensures q.row.hash == p.row.hash
  {
    OwnPiece(fingerprint, b, g, p);
    OwnPiece(fingerprint, b, g, q);
    assert q.id != "";
    assert StoredPiece(Node(g), p) == StoredPiece(Node(g), q);
  }

  /** A piece's key is unwanted exactly if the piece has no id and no other piece of the graph was given its
      fingerprint as an id. */
  lemma UnwantedMeansUnnamed(fingerprint: Fingerprint, b: Batch, g: SyncGraph, p: Piece)
    requires WellFormed(fingerprint, b) && OwnPieces(b) && Names(fingerprint) && g in b.graphs && p in g.chunks
    ensures Unwanted(fingerprint, Node(g), g.chunks, p)
            <==> p.id == "" && forall q | q in g.chunks :: q.id != PieceKey(fingerprint, Node(g), p).id
  {
    var id := PieceKey(fingerprint, Node(g), p).id;
    WantedIds(g.chunks, id);
    forall q | q in g.chunks && q.id == id ensures q.row.hash == p.row.hash { SameIdSameHash(fingerprint, b, g, p, q); }
    if id in Wanted(g.chunks) { WantedHash(g.chunks, id, p.row.hash); }
  }

  // ---- after a graph trimmed its source, the source owns the graph's keys only ----

  ghost predicate OwnsOnlyKeys(fingerprint: Fingerprint, g: SyncGraph, chunks: map<ChunkKey, Chunk>) {
    forall c | c in chunks && OfChunk(c, chunks[c]) == Node(g) ::
      if c.id == "" then "" in Wanted(g.chunks) && Wanted(g.chunks)[""] == chunks[c].hash else IsKey(fingerprint, g, c)
  }

  lemma TrimLeavesKeys(fingerprint: Fingerprint, b: Batch, g: SyncGraph, t: Tables)
    requires OwnPieces(b) && g in b.graphs
    ensures OwnsOnlyKeys(fingerprint, g, t.chunks - StaleChunks(t, Node(g), Wanted(g.chunks)))
  {
    var left := t.chunks - StaleChunks(t, Node(g), Wanted(g.chunks));
    forall c | c in left && OfChunk(c, left[c]) == Node(g) && c.id != "" ensures IsKey(fingerprint, g, c) {
      assert c !in StaleChunks(t, Node(g), Wanted(g.chunks));
      WantedIds(g.chunks, c.id);
      var p :| p in g.chunks && p.id == c.id;
      OwnPiece(fingerprint, b, g, p);
    }
  }

  lemma PutLeavesKeys(fingerprint: Fingerprint, b: Batch, g: SyncGraph, h: SyncGraph, q: Piece, chunks: map<ChunkKey, Chunk>, later: map<ChunkKey, Chunk>)
    requires WellFormed(fingerprint, b) && OwnPieces(b) && Names(fingerprint) && g in b.graphs && h in b.graphs && q in h.chunks
    requires OwnsOnlyKeys(fingerprint, g, chunks)
    requires var c, row := PieceKey(fingerprint, Node(h), q), StoredPiece(Node(h), q);
             later == chunks[c := if c in chunks then MergeChunk(chunks[c], row) else row]
    ensures OwnsOnlyKeys(fingerprint, g, later)
  {
    OwnPiece(fingerprint, b, h, q);
    var c := PieceKey(fingerprint, Node(h), q);
    assert c.id != "";
    if c !in chunks && OfChunk(c, later[c]) == Node(g) { assert g == h && IsKey(fingerprint, g, c); }
  }

  /** A statement that stores no chunk leaves the chunks that it does not delete as they are. */
  ghost predicate ChunksThinned(t: map<ChunkKey, Chunk>, u: map<ChunkKey, Chunk>) {
    forall c | c in u :: c in t && u[c] == t[c]
  }

  lemma OthersThinChunks(t: Tables, v: Write)
    requires Exec(t, v).Some? && !v.PutChunk?
    ensures ChunksThinned(t.chunks, Exec(t, v).value.chunks)
  {
    if !WritesContent(v) { ContentSpared(t, v); }
  }

  lemma ThinningLeavesKeys(fingerprint: Fingerprint, g: SyncGraph, t: map<ChunkKey, Chunk>, u: map<ChunkKey, Chunk>)
    requires OwnsOnlyKeys(fingerprint, g, t) && ChunksThinned(t, u)
    ensures OwnsOnlyKeys(fingerprint, g, u)
  {
  }

  /** Every chunk that the statements store is some graph's piece. */
  ghost predicate StoresPieces(fingerprint: Fingerprint, b: Batch, ws: seq<Write>) {
    forall w | w in ws && w.PutChunk? ::
      exists h, q :: h in b.graphs && q in h.chunks && w == PutChunk(PieceKey(fingerprint, Node(h), q), StoredPiece(Node(h), q))
  }

  lemma PutKeysStep(fingerprint: Fingerprint, b: Batch, g: SyncGraph, t: Tables, h: SyncGraph, q: Piece, u: Tables)
    requires WellFormed(fingerprint, b) && OwnPieces(b) && Names(fingerprint) && g in b.graphs && h in b.graphs && q in h.chunks
    requires UpsertChunk(t, PieceKey(fingerprint, Node(h), q), StoredPiece(Node(h), q)) == Some(u) && OwnsOnlyKeys(fingerprint, g, t.chunks)
    ensures OwnsOnlyKeys(fingerprint, g, u.chunks)
  {
    ChunkUpserted(t, PieceKey(fingerprint, Node(h), q), StoredPiece(Node(h), q));
    PutLeavesKeys(fingerprint, b, g, h, q, t.chunks, u.chunks);
  }

  lemma OtherKeysStep(fingerprint: Fingerprint, g: SyncGraph, t: Tables, v: Write)
    requires Exec(t, v).Some? && !v.PutChunk? && OwnsOnlyKeys(fingerprint, g, t.chunks)
    ensures OwnsOnlyKeys(fingerprint, g, Exec(t, v).value.chunks)
  {
    OthersThinChunks(t, v);
    ThinningLeavesKeys(fingerprint, g, t.chunks, Exec(t, v).value.chunks);
  }

  lemma KeysStep(fingerprint: Fingerprint, b: Batch, g: SyncGraph, t: Tables, v: Write)
    requires WellFormed(fingerprint, b) && OwnPieces(b) && Names(fingerprint) && g in b.graphs && StoresPieces(fingerprint, b, [v])
    requires Exec(t, v).Some? && (OwnsOnlyKeys(fingerprint, g, t.chunks) || v == TrimChunks(Node(g), Wanted(g.chunks)))
    ensures OwnsOnlyKeys(fingerprint, g, Exec(t, v).value.chunks)
  {
    if v == TrimChunks(Node(g), Wanted(g.chunks)) {
      TrimLeavesKeys(fingerprint, b, g, t);
    } else if v.PutChunk? {
      assert v in [v];
      var h, q :| h in b.graphs && q in h.chunks && v == PutChunk(PieceKey(fingerprint, Node(h), q), StoredPiece(Node(h), q));
      PutKeysStep(fingerprint, b, g, t, h, q, Exec(t, v).value);
    } else {
      OtherKeysStep(fingerprint, g, t, v);
    }
  }

  lemma {:induction false} KeysThrough(fingerprint: Fingerprint, b: Batch, g: SyncGraph, t: Tables, ws: seq<Write>)
    requires WellFormed(fingerprint, b) && OwnPieces(b) && Names(fingerprint) && g in b.graphs && StoresPieces(fingerprint, b, ws)
    requires ExecAll(t, ws).Some? && (OwnsOnlyKeys(fingerprint, g, t.chunks) || TrimChunks(Node(g), Wanted(g.chunks)) in ws)
    ensures OwnsOnlyKeys(fingerprint, g, ExecAll(t, ws).value.chunks)
    decreases |ws|
  {
    if ws != [] {
      var v := ws[0];
      assert v in ws;
      if OwnsOnlyKeys(fingerprint, g, t.chunks) || v == TrimChunks(Node(g), Wanted(g.chunks)) { KeysStep(fingerprint, b, g, t, v); }
      KeysThrough(fingerprint, b, g, Exec(t, v).value, ws[1..]);
    }
  }

  lemma WritesStorePieces(fts: bool, fingerprint: Fingerprint, b: Batch, ws: seq<Write>)
    requires WritesGraphs(fts, fingerprint, b, ws)
    ensures StoresPieces(fingerprint, b, ws)
  {
    forall w | w in ws && w.PutChunk?
      ensures exists h, q :: h in b.graphs && q in h.chunks && w == PutChunk(PieceKey(fingerprint, Node(h), q), StoredPiece(Node(h), q))
    {
      var h :| h in b.graphs && WritesOf(fts, fingerprint, h, w);
    }
  }

  // ---- so what a replay would trim is exactly the unwanted keys ----

  /** After a committed batch each stored piece has its own content hash. */
  lemma StoredHash(fts: bool, fingerprint: Fingerprint, now: string, t: Tables, b: Batch, s: Tables, g: SyncGraph, p: Piece)
    requires WellFormed(fingerprint, b) && ExecAll(t, BatchWrites(fts, fingerprint, now, b)) == Some(s) && g in b.graphs && p in g.chunks
    ensures var c := PieceKey(fingerprint, Node(g), p); c in s.chunks ==> s.chunks[c].hash == p.row.hash
  {
    var published, closing := Published(fts, fingerprint, now, b), Reconciled(b) + Checkpoint(now, b);
    var w := PutChunk(PieceKey(fingerprint, Node(g), p), StoredPiece(Node(g), p));
    assert BatchWrites(fts, fingerprint, now, b) == published + closing;
    BatchIsConsistent(fts, fingerprint, now, b);
    GraphIsWritten(fts, fingerprint, now, b, t, g);
    BatchSettles(t, published, closing, w);
  }

  lemma SourceOwnsKeys(fts: bool, fingerprint: Fingerprint, now: string, t: Tables, b: Batch, s: Tables, g: SyncGraph)
    requires WellFormed(fingerprint, b) && OwnPieces(b) && Names(fingerprint) && g in b.graphs && g.replaceChunks
    requires ExecAll(t, BatchWrites(fts, fingerprint, now, b)) == Some(s)
    ensures OwnsOnlyKeys(fingerprint, g, s.chunks)
  {
    var ws := Published(fts, fingerprint, now, b) + (Reconciled(b) + Checkpoint(now, b));
    assert BatchWrites(fts, fingerprint, now, b) == ws;
    BatchWritesGraphs(fts, fingerprint, now, b, t);
    WritesStorePieces(fts, fingerprint, b, ws);
    KeysThrough(fingerprint, b, g, t, ws);
  }

  /** The chunks that a replay of a committed batch finds stale are exactly the stored pieces that it left to the
      graph's own source under an unwanted key. */
  lemma StaleAreUnwanted(fts: bool, fingerprint: Fingerprint, now: string, t: Tables, b: Batch, s: Tables, g: SyncGraph, c: ChunkKey)
    requires WellFormed(fingerprint, b) && OwnPieces(b) && Names(fingerprint) && g in b.graphs && g.replaceChunks
    requires ExecAll(t, BatchWrites(fts, fingerprint, now, b)) == Some(s)
    ensures c in StaleChunks(s, Node(g), Wanted(g.chunks))
            <==> exists p :: p in g.chunks && PieceKey(fingerprint, Node(g), p) == c && Unwanted(fingerprint, Node(g), g.chunks, p)
                             && Stored(fingerprint, s, Node(g), p)
  {
    SourceOwnsKeys(fts, fingerprint, now, t, b, s, g);
    forall p | p in g.chunks && PieceKey(fingerprint, Node(g), p) == c && c in s.chunks ensures s.chunks[c].hash == p.row.hash {
      StoredHash(fts, fingerprint, now, t, b, s, g, p);
    }
    if c in StaleChunks(s, Node(g), Wanted(g.chunks)) {
      var p :| p in g.chunks && PieceKey(fingerprint, Node(g), p) == c;
      assert Unwanted(fingerprint, Node(g), g.chunks, p) && Stored(fingerprint, s, Node(g), p);
    }
  }

  /** A piece of a replacing graph that is stored for the graph's own source under an unwanted key. */
  ghost predicate TrimsItself(fingerprint: Fingerprint, b: Batch, s: Tables) {
    exists g, p :: g in b.graphs && g.replaceChunks && p in g.chunks && Unwanted(fingerprint, Node(g), g.chunks, p)
                   && Stored(fingerprint, s, Node(g), p)
  }

  lemma NothingToTrimMeans(fts: bool, fingerprint: Fingerprint, now: string, t: Tables, b: Batch, s: Tables)
    requires WellFormed(fingerprint, b) && OwnPieces(b) && Names(fingerprint)
    requires ExecAll(t, BatchWrites(fts, fingerprint, now, b)) == Some(s)
    ensures NothingToTrim(b, s) <==> !TrimsItself(fingerprint, b, s)
  {
    forall g | g in b.graphs && g.replaceChunks && !TrimsItself(fingerprint, b, s)
      ensures StaleChunks(s, Node(g), Wanted(g.chunks)) == {}
    {
      forall c ensures c !in StaleChunks(s, Node(g), Wanted(g.chunks)) { StaleAreUnwanted(fts, fingerprint, now, t, b, s, g, c); }
    }
    if TrimsItself(fingerprint, b, s) {
      var g, p :| g in b.graphs && g.replaceChunks && p in g.chunks && Unwanted(fingerprint, Node(g), g.chunks, p) && Stored(fingerprint, s, Node(g), p);
      assert PieceKey(fingerprint, Node(g), p) in StaleChunks(s, Node(g), Wanted(g.chunks));
    }
  }

  // ---- an unwanted key loses its embeddings to every replay ----

  /** The embedding is gone, or its chunk still is stale for k. */
  ghost predicate Doomed(t: Tables, k: NodeKey, c: ChunkKey, hash: string, e: EmbeddingKey) {
    e !in t.embeddings || (c in t.chunks && OfChunk(c, t.chunks[c]) == k && t.chunks[c].hash == hash)
  }

  lemma EmbeddingsShrink(t: Tables, v: Write)
    requires Exec(t, v).Some?
    ensures Exec(t, v).value.embeddings.Keys <= t.embeddings.Keys
  {
    if !WritesContent(v) {
      ContentSpared(t, v);
    } else if v.PutChunk? {
      ChunkUpserted(t, v.chunk, v.piece);
    }
  }

  /** A chunk that is deleted takes its embeddings along. */
  lemma GoneTogether(t: Tables, v: Write, e: EmbeddingKey)
    requires Exec(t, v).Some? && Embedded(e) in t.chunks && Embedded(e) !in Exec(t, v).value.chunks
    ensures e !in Exec(t, v).value.embeddings
  {
    if !WritesContent(v) { ContentSpared(t, v); }
  }

  lemma DoomedStep(t: Tables, v: Write, k: NodeKey, c: ChunkKey, hash: string, e: EmbeddingKey)
    requires Doomed(t, k, c, hash, e) && Embedded(e) == c && Exec(t, v).Some?
    requires v.PutChunk? && v.chunk == c ==> v.piece.hash == hash
    ensures Doomed(Exec(t, v).value, k, c, hash, e)
  {
    var u := Exec(t, v).value;
    EmbeddingsShrink(t, v);
    if e in u.embeddings {
      if c !in u.chunks {
        GoneTogether(t, v, e);
      } else if v.PutChunk? {
        ChunkUpserted(t, v.chunk, v.piece);
      } else {
        OthersThinChunks(t, v);
      }
    }
  }

  lemma TrimmedWithEmbeddings(t: Tables, k: NodeKey, wanted: map<string, string>, c: ChunkKey, hash: string, e: EmbeddingKey)
    requires Doomed(t, k, c, hash, e) && Embedded(e) == c && !(c.id in wanted && wanted[c.id] == hash)
    ensures e !in Exec(t, TrimChunks(k, wanted)).value.embeddings
  {
    if e in t.embeddings {
      assert c in StaleChunks(t, k, wanted);
      GoneTogether(t, TrimChunks(k, wanted), e);
    }
  }

  lemma {:induction false} DoomedThrough(t: Tables, ws: seq<Write>, k: NodeKey, wanted: map<string, string>, c: ChunkKey, hash: string, e: EmbeddingKey)
    requires Doomed(t, k, c, hash, e) && Embedded(e) == c && ExecAll(t, ws).Some?
    requires forall v | v in ws && v.PutChunk? && v.chunk == c :: v.piece.hash == hash
    requires !(c.id in wanted && wanted[c.id] == hash)
    ensures Doomed(ExecAll(t, ws).value, k, c, hash, e)
    ensures e !in t.embeddings || TrimChunks(k, wanted) in ws ==> e !in ExecAll(t, ws).value.embeddings
    decreases |ws|
  {
    if ws != [] {
      var v := ws[0];
      assert v in ws;
      DoomedStep(t, v, k, c, hash, e);
      EmbeddingsShrink(t, v);
      if v == TrimChunks(k, wanted) { TrimmedWithEmbeddings(t, k, wanted, c, hash, e); }
      DoomedThrough(Exec(t, v).value, ws[1..], k, wanted, c, hash, e);
    }
  }

  /** Whatever state it starts from, a batch that commits over a stored piece with an unwanted key deletes every
      embedding of that piece and raises the generation, although it stores the very same chunk. */
  lemma ReplayLosesEmbeddings(fts: bool, fingerprint: Fingerprint, now: string, s: Tables, b: Batch, u: Tables, g: SyncGraph, p: Piece, e: EmbeddingKey)
    requires WellFormed(fingerprint, b) && g in b.graphs && g.replaceChunks && p in g.chunks
    requires Unwanted(fingerprint, Node(g), g.chunks, p) && Stored(fingerprint, s, Node(g), p)
    requires Embedded(e) == PieceKey(fingerprint, Node(g), p)
    requires ExecAll(s, BatchWrites(fts, fingerprint, now, b)) == Some(u)
    ensures e !in u.embeddings && Generation(s, GraphRepo(g)) < Generation(u, GraphRepo(g))
  {
    var ws := Published(fts, fingerprint, now, b) + (Reconciled(b) + Checkpoint(now, b));
    assert BatchWrites(fts, fingerprint, now, b) == ws;
    BatchWritesGraphs(fts, fingerprint, now, b, s);
    WritesStorePieces(fts, fingerprint, b, ws);
    var c := PieceKey(fingerprint, Node(g), p);
    forall v | v in ws && v.PutChunk? && v.chunk == c ensures v.piece.hash == p.row.hash {
      var h, q :| h in b.graphs && q in h.chunks && v == PutChunk(PieceKey(fingerprint, Node(h), q), StoredPiece(Node(h), q));
      assert StoredPiece(Node(h), q) == StoredPiece(Node(g), p);
    }
    DoomedThrough(s, ws, Node(g), Wanted(g.chunks), c, p.row.hash, e);
    assert c in StaleChunks(s, Node(g), Wanted(g.chunks));
    StaleGrows(s, ws, Node(g), Wanted(g.chunks), c);
  }
}
