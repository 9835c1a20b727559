/** The replay theorem for every sync batch: graphs may repeat a record, and pieces a key, with different contents. */
module SyncBatchReplay {
  import opened Wrappers
  import opened Collections
  import opened Records
  import opened RecordsContent
  import opened RecordsChunks
  import opened SyncBatch
  import opened SyncReplay
  import opened SyncIdempotence
  import opened SyncStatements
  import opened SyncTrimming
  import opened SyncRows

  /** What a statement would do to content is done: its source or chunk is there with its hash, or there is nothing to
      trim. */
  ghost predicate Stands(t: Tables, w: Write) {
    if w.PutSource? then w.node in t.sources && t.sources[w.node].hash == w.source.hash
    else if w.PutChunk? then w.chunk in t.chunks && t.chunks[w.chunk].hash == w.piece.hash
    else w.TrimChunks? ==> NothingStale(t.chunks, w.node, w.wanted)
  }

  ghost predicate AllStand(t: Tables, ws: seq<Write>) { forall w | w in ws :: Stands(t, w) }

  // ---- if something does not stand, the generation moves ----

  lemma {:induction false} FallenSourceGrows(t: Tables, ws: seq<Write>, w: Write)
    requires ExecAll(t, ws).Some? && w in ws && w.PutSource? && !Stands(t, w)
    ensures Generation(t, w.node.repo) < Generation(ExecAll(t, ws).value, w.node.repo)
    decreases |ws|
  {
    var u := Exec(t, ws[0]).value;
    ExecStamps(t, ws[0], w.node.repo);
    ExecAllStamps(u, ws[1..], w.node.repo);
    if Generation(t, w.node.repo) == Generation(u, w.node.repo) {
      if ws[0] == w { SourceSettles(t, w.node, w.source); }
      assert !Stands(u, w);
      FallenSourceGrows(u, ws[1..], w);
    }
  }

  lemma ChunkStaysFallen(t: Tables, v: Write, w: Write)
    requires w.PutChunk? && !Stands(t, w) && Exec(t, v).Some?
    requires Generation(t, w.chunk.repo) == Generation(Exec(t, v).value, w.chunk.repo)
    ensures v != w && !Stands(Exec(t, v).value, w)
  {
    ExecStamps(t, v, w.chunk.repo);
    if v == w { ChunkUpserted(t, w.chunk, w.piece); }
  }

  lemma {:induction false} FallenChunkGrows(t: Tables, ws: seq<Write>, w: Write)
    requires ExecAll(t, ws).Some? && w in ws && w.PutChunk? && !Stands(t, w)
    ensures Generation(t, w.chunk.repo) < Generation(ExecAll(t, ws).value, w.chunk.repo)
    decreases |ws|
  {
    var u := Exec(t, ws[0]).value;
    ExecStamps(t, ws[0], w.chunk.repo);
    ExecAllStamps(u, ws[1..], w.chunk.repo);
    if Generation(t, w.chunk.repo) == Generation(u, w.chunk.repo) {
      ChunkStaysFallen(t, ws[0], w);
      FallenChunkGrows(u, ws[1..], w);
    }
  }

  lemma FallenGrows(t: Tables, ws: seq<Write>)
    requires ExecAll(t, ws).Some? && !AllStand(t, ws)
    ensures exists repo :: Generation(t, repo) < Generation(ExecAll(t, ws).value, repo)
  {
    var w :| w in ws && !Stands(t, w);
    if w.PutSource? {
      FallenSourceGrows(t, ws, w);
    } else if w.PutChunk? {
      FallenChunkGrows(t, ws, w);
    } else {
      MissingTrimGrows(t, ws, w);
    }
  }

  // ---- if all stands, content stays put ----

  /** The same sources and chunks with the same hashes and owners, the same embeddings and generations. */
  ghost predicate SameFooting(t: Tables, u: Tables) {
    && t.sources.Keys == u.sources.Keys && (forall k | k in t.sources :: t.sources[k].hash == u.sources[k].hash)
    && t.chunks.Keys == u.chunks.Keys
    && (forall c | c in t.chunks :: t.chunks[c].hash == u.chunks[c].hash && t.chunks[c].source == u.chunks[c].source)
    && t.embeddings == u.embeddings && t.generations == u.generations
  }

  lemma FootingTransitive(t: Tables, u: Tables, v: Tables)
    requires SameFooting(t, u) && SameFooting(u, v)
    ensures SameFooting(t, v)
  {
  }

  lemma FootingStands(t: Tables, u: Tables, w: Write)
    requires SameFooting(t, u) && Stands(t, w)
    ensures Stands(u, w)
  {
  }

  lemma StandingSource(t: Tables, w: Write)
    requires w.PutSource? && Stands(t, w) && UpsertSource(t, w.node, w.source).Some?
    ensures SameFooting(t, UpsertSource(t, w.node, w.source).value)
  {
  }

  lemma StandingChunk(t: Tables, w: Write)
    requires w.PutChunk? && Stands(t, w) && UpsertChunk(t, w.chunk, w.piece).Some?
    ensures SameFooting(t, UpsertChunk(t, w.chunk, w.piece).value)
  {
  }

  lemma SparedFooting(t: Tables, u: Tables)
    requires ContentUntouched(t, u)
    ensures SameFooting(t, u)
  {
  }

  lemma StandingStep(t: Tables, w: Write)
    requires Publishing(w) && Stands(t, w) && Exec(t, w).Some?
    ensures SameFooting(t, Exec(t, w).value)
  {
    if w.PutSource? {
      StandingSource(t, w);
    } else if w.PutChunk? {
      StandingChunk(t, w);
    } else if w.TrimChunks? {
      TrimAgain(t, w);
    } else {
      ContentSpared(t, w);
      SparedFooting(t, Exec(t, w).value);
    }
  }

  lemma {:induction false} StandingRun(t: Tables, ws: seq<Write>)
    requires AllPublishing(ws) && AllStand(t, ws) && ExecAll(t, ws).Some?
    ensures SameFooting(t, ExecAll(t, ws).value)
    decreases |ws|
  {
    if ws != [] {
      var u := Exec(t, ws[0]).value;
      assert ws[0] in ws;
      StandingStep(t, ws[0]);
      forall w | w in ws[1..] ensures Stands(u, w) { FootingStands(t, u, w); }
      StandingRun(u, ws[1..]);
      FootingTransitive(t, u, ExecAll(u, ws[1..]).value);
    }
  }

  // ---- chunks ----

  function ChunkAt(w: Write, c: ChunkKey): Option<Chunk> { if w.PutChunk? && w.chunk == c then Some(w.piece) else None }

  /** The last row written for the chunk. */
  function LastChunk(ws: seq<Write>, c: ChunkKey): Option<Chunk> {
    if ws == [] then None
    else
      var rest := LastChunk(ws[1..], c);
      if rest.Some? then rest else ChunkAt(ws[0], c)
  }

  /** Apart from what an upsert keeps of the stored row, the chunk is that row. */
  predicate Carries(chunks: map<ChunkKey, Chunk>, c: ChunkKey, row: Option<Chunk>) {
    c in chunks && row.Some? ==> chunks[c] == MergeChunk(chunks[c], row.value)
  }

  lemma PutCarries(t: Tables, w: Write, c: ChunkKey)
    requires Exec(t, w).Some?
    ensures Carries(Exec(t, w).value.chunks, c, ChunkAt(w, c))
  {
    if w.PutChunk? { ChunkUpserted(t, w.chunk, w.piece); }
  }

  lemma CarriedStep(t: Tables, w: Write, c: ChunkKey, row: Option<Chunk>)
    requires Exec(t, w).Some? && Carries(t.chunks, c, row) && ChunkAt(w, c).None?
    ensures c in Exec(t, w).value.chunks ==> c in t.chunks && Exec(t, w).value.chunks[c] == t.chunks[c]
  {
    if w.PutChunk? { ChunkUpserted(t, w.chunk, w.piece); } else { OthersThinChunks(t, w); }
  }

  lemma {:induction false} LastCarried(t: Tables, ws: seq<Write>, c: ChunkKey, row: Option<Chunk>)
    requires ExecAll(t, ws).Some? && Carries(t.chunks, c, row)
    ensures Carries(ExecAll(t, ws).value.chunks, c, if LastChunk(ws, c).Some? then LastChunk(ws, c) else row)
    decreases |ws|
  {
    if ws != [] {
      var u := Exec(t, ws[0]).value;
      PutCarries(t, ws[0], c);
      if ChunkAt(ws[0], c).Some? {
        LastCarried(u, ws[1..], c, ChunkAt(ws[0], c));
      } else {
        CarriedStep(t, ws[0], c, row);
        LastCarried(u, ws[1..], c, row);
      }
    }
  }

  lemma {:induction false} LastIsWritten(ws: seq<Write>, c: ChunkKey)
    ensures LastChunk(ws, c).Some? ==> exists w :: w in ws && w.PutChunk? && w.chunk == c
    decreases |ws|
  {
    if ws != [] {
      LastIsWritten(ws[1..], c);
      assert ws[0] in ws && forall w | w in ws[1..] :: w in ws;
    }
  }

  /** What an upsert keeps of a stored chunk. */
  ghost predicate SameIdentity(t: Tables, u: Tables, c: ChunkKey) {
    (c in t.chunks <==> c in u.chunks) && (c in t.chunks ==> t.chunks[c].source == u.chunks[c].source && t.chunks[c].byteStart == u.chunks[c].byteStart)
  }

  lemma StandingIdentity(t: Tables, w: Write, c: ChunkKey)
    requires Publishing(w) && Stands(t, w) && Exec(t, w).Some?
    ensures var u := Exec(t, w).value;
            SameIdentity(t, u, c) && (ChunkAt(w, c).None? && c in t.chunks ==> u.chunks[c] == t.chunks[c])
  {
    if w.PutChunk? {
      ChunkUpserted(t, w.chunk, w.piece);
    } else if w.TrimChunks? {
      TrimAgain(t, w);
    } else {
      PublishingFrame(t, w);
    }
  }

  lemma {:induction false} StandingChunks(t: Tables, ws: seq<Write>, c: ChunkKey)
    requires AllPublishing(ws) && AllStand(t, ws) && ExecAll(t, ws).Some?
    ensures var u := ExecAll(t, ws).value;
            SameIdentity(t, u, c) && (LastChunk(ws, c).None? && c in t.chunks ==> u.chunks[c] == t.chunks[c])
    decreases |ws|
  {
    if ws != [] {
      var u := Exec(t, ws[0]).value;
      assert ws[0] in ws;
      StandingStep(t, ws[0]);
      StandingIdentity(t, ws[0], c);
      forall w | w in ws[1..] ensures Stands(u, w) { FootingStands(t, u, w); }
      StandingChunks(u, ws[1..], c);
    }
  }

  /** Written again, a chunk that was left by the same statements stays as it is. */
  lemma ChunksStand(t: Tables, published: seq<Write>, closing: seq<Write>, s: Tables)
    requires AllPublishing(published) && AllClosing(closing) && ExecAll(t, published).Some?
    requires ExecAll(ExecAll(t, published).value, closing) == Some(s) && ExecAll(s, published).Some? && AllStand(s, published)
    ensures ExecAll(s, published).value.chunks == s.chunks
  {
    var x := ExecAll(s, published).value;
    forall c ensures Get(x.chunks, c) == Get(s.chunks, c) {
      ChunkStands(t, published, closing, s, c);
    }
    GetDecides(x.chunks, s.chunks);
  }

  lemma {:induction false} ClosingStoresNothing(ws: seq<Write>, c: ChunkKey)
    requires AllClosing(ws)
    ensures LastChunk(ws, c).None?
    decreases |ws|
  {
    if ws != [] {
      assert ws[0] in ws;
      ClosingStoresNothing(ws[1..], c);
    }
  }

  lemma ChunkStands(t: Tables, published: seq<Write>, closing: seq<Write>, s: Tables, c: ChunkKey)
    requires AllPublishing(published) && AllClosing(closing) && ExecAll(t, published).Some?
    requires ExecAll(ExecAll(t, published).value, closing) == Some(s) && ExecAll(s, published).Some? && AllStand(s, published)
    ensures Get(ExecAll(s, published).value.chunks, c) == Get(s.chunks, c)
  {
    var last := LastChunk(published, c);
    LastCarried(t, published, c, None);
    ClosingStoresNothing(closing, c);
    LastCarried(ExecAll(t, published).value, closing, c, last);
    LastCarried(s, published, c, None);
    StandingChunks(s, published, c);
  }

  // ---- links, and the tables that publishing never writes ----

  ghost predicate SameRest(t: Tables, u: Tables) {
    t.repos == u.repos && t.confirmations == u.confirmations && t.audit == u.audit
  }

  lemma RowSparesRest(t: Tables, w: Write)
    requires Publishing(w) && WritesRows(w) && Exec(t, w).Some?
    ensures SameRest(t, Exec(t, w).value)
  {
  }

  lemma AttachmentSparesRest(t: Tables, w: Write)
    requires Attaches(w) && Exec(t, w).Some?
    ensures SameRest(t, Exec(t, w).value)
  {
  }

  lemma ContentSparesRest(t: Tables, w: Write)
    requires Publishing(w) && !WritesRows(w) && !Attaches(w) && Exec(t, w).Some?
    ensures SameRest(t, Exec(t, w).value)
  {
  }

  lemma PublishingSparesRest(t: Tables, w: Write)
    requires Publishing(w) && Exec(t, w).Some?
    ensures SameRest(t, Exec(t, w).value)
  {
    if WritesRows(w) {
      RowSparesRest(t, w);
    } else if Attaches(w) {
      AttachmentSparesRest(t, w);
    } else {
      ContentSparesRest(t, w);
    }
  }

  /** Every link that the statements put is there, if its ends are. */
  ghost predicate LinksKept(t: Tables, ws: seq<Write>) { forall w | w in ws && w.PutLink? :: Kept(t, w) }

  lemma LinkAgain(t: Tables, w: Write)
    requires Publishing(w) && Exec(t, w).Some? && (w.PutLink? ==> Kept(t, w))
    ensures Exec(t, w).value.links == t.links
  {
    if w.PutLink? {
      LinkPresent(t, w);
      assert t.links + {w.link} == t.links;
    } else {
      PublishingFrame(t, w);
    }
  }

  lemma {:induction false} LinksStand(t: Tables, ws: seq<Write>)
    requires AllPublishing(ws) && AllStand(t, ws) && LinksKept(t, ws) && ExecAll(t, ws).Some?
    ensures var u := ExecAll(t, ws).value; u.links == t.links && SameRest(t, u) && SameCheckpoints(t, u)
    decreases |ws|
  {
    if ws != [] {
      var u := Exec(t, ws[0]).value;
      assert ws[0] in ws;
      StandingStep(t, ws[0]);
      LinkAgain(t, ws[0]);
      PublishingSparesRest(t, ws[0]);
      PublishingSparesCheckpoints(t, ws[0]);
      forall w | w in ws[1..] ensures Stands(u, w) && (w.PutLink? ==> Kept(u, w)) { FootingStands(t, u, w); }
      LinksStand(u, ws[1..]);
    }
  }

  lemma PutLinkKept(t: Tables, published: seq<Write>, closing: seq<Write>, s: Tables, w: Write)
    requires AllPublishing(published) && AllClosing(closing) && ExecAll(t, published).Some?
    requires ExecAll(ExecAll(t, published).value, closing) == Some(s) && w in published && w.PutLink?
    ensures Kept(s, w)
  {
    assert CompatibleWithAll(w, published) && CompatibleWithAll(w, closing);
    AllHeld(t, published, w);
    KeptThrough(ExecAll(t, published).value, w, closing);
  }

  // ---- the theorem, for statements ----

  lemma ReplayStands(t: Tables, published: seq<Write>, closing: seq<Write>, s: Tables)
    requires Referential(t) && AllPublishing(published) && AllClosing(closing) && Rooted(published)
    requires ExecAll(t, published).Some? && ExecAll(ExecAll(t, published).value, closing) == Some(s)
    requires ExecAll(s, published).Some? && AllStand(s, published)
    ensures ExecAll(s, published) == Some(s)
  {
    var x := ExecAll(s, published).value;
    forall w | w in published && (w.PutSource? || w.PutSearch? || w.PutRecord?) ensures w.node in s.sources { RootStands(s, published, w); }
    RowsAgain(t, published, closing, s);
    ChunksStand(t, published, closing, s);
    StandingRun(s, published);
    forall w | w in published && w.PutLink? ensures Kept(s, w) { PutLinkKept(t, published, closing, s, w); }
    LinksStand(s, published);
    assert SameCore(s, x);
    ReplayKeepsLoose(t, published, closing, s);
    SameTables(s, x);
  }

  lemma RootStands(s: Tables, published: seq<Write>, w: Write)
    requires Rooted(published) && AllStand(s, published) && w in published && (w.PutSource? || w.PutSearch? || w.PutRecord?)
    ensures w.node in s.sources
  {
    if w.PutSource? {
      assert Stands(s, w);
    } else {
      var v :| v in published && v.PutSource? && v.node == w.node;
      assert Stands(s, v);
    }
  }

  lemma CloseSettles(mid: Tables, closing: seq<Write>, s: Tables)
    requires AllClosing(closing) && Consistent(closing) && ExecAll(mid, closing) == Some(s) && ExecAll(s, closing).Some?
    ensures ExecAll(s, closing) == Some(s)
  {
    forall w | w in closing ensures Settled(s, w) {
      AllKept(mid, closing, w);
      assert Present(s, w);
    }
    ClosingChangesNothing(s, closing);
  }

  lemma ReplayStatements(t: Tables, published: seq<Write>, closing: seq<Write>, s: Tables, u: Tables)
    requires Referential(t) && AllPublishing(published) && AllClosing(closing) && Consistent(closing) && Rooted(published)
    requires ExecAll(t, published + closing) == Some(s) && ExecAll(s, published + closing) == Some(u)
    ensures u == s <==> AllStand(s, published)
    ensures u == s || exists repo :: Generation(s, repo) < Generation(u, repo)
  {
    ExecAllConcat(t, published, closing);
    ExecAllConcat(s, published, closing);
    if AllStand(s, published) {
      ReplayStands(t, published, closing, s);
      CloseSettles(ExecAll(t, published).value, closing, s);
    } else {
      assert forall w | w in published :: w in published + closing;
      FallenGrows(s, published + closing);
    }
  }

  // ---- the theorem, for batches ----

  /** Every graph's source and chunks are there, each with the hash that the graph gives it, and a graph that replaces
      its chunks would find none to delete. */
  ghost predicate GraphsStand(fingerprint: Fingerprint, b: Batch, t: Tables) {
    forall g | g in b.graphs ::
      && Node(g) in t.sources && t.sources[Node(g)].hash == g.record.row.hash
      && (g.replaceChunks ==> StaleChunks(t, Node(g), Wanted(g.chunks)) == {})
      && forall p | p in g.chunks :: PieceKey(fingerprint, Node(g), p) in t.chunks && t.chunks[PieceKey(fingerprint, Node(g), p)].hash == p.row.hash
  }

  lemma GraphStands(fts: bool, fingerprint: Fingerprint, b: Batch, t: Tables, g: SyncGraph, w: Write)
    requires GraphsStand(fingerprint, b, t) && g in b.graphs && WritesOf(fts, fingerprint, g, w)
    ensures Stands(t, w)
  {
    NothingStaleMeans(t, Node(g), Wanted(g.chunks));
  }

  lemma StandingGraph(fts: bool, fingerprint: Fingerprint, b: Batch, ws: seq<Write>, t: Tables, g: SyncGraph)
    requires WritesGraphs(fts, fingerprint, b, ws) && AllStand(t, ws) && g in b.graphs
    ensures Node(g) in t.sources && t.sources[Node(g)].hash == g.record.row.hash
    ensures g.replaceChunks ==> StaleChunks(t, Node(g), Wanted(g.chunks)) == {}
    ensures forall p | p in g.chunks :: PieceKey(fingerprint, Node(g), p) in t.chunks && t.chunks[PieceKey(fingerprint, Node(g), p)].hash == p.row.hash
  {
    NothingStaleMeans(t, Node(g), Wanted(g.chunks));
    assert Stands(t, PutSource(Node(g), StoredSource(g)));
    assert g.replaceChunks ==> Stands(t, TrimChunks(Node(g), Wanted(g.chunks)));
    forall p | p in g.chunks
      ensures PieceKey(fingerprint, Node(g), p) in t.chunks && t.chunks[PieceKey(fingerprint, Node(g), p)].hash == p.row.hash
    {
      assert Stands(t, PutChunk(PieceKey(fingerprint, Node(g), p), StoredPiece(Node(g), p)));
    }
  }

  lemma StandingOfGraphs(fts: bool, fingerprint: Fingerprint, b: Batch, ws: seq<Write>, t: Tables)
    requires WritesGraphs(fts, fingerprint, b, ws)
    ensures AllStand(t, ws) <==> GraphsStand(fingerprint, b, t)
  {
    if GraphsStand(fingerprint, b, t) {
      forall w | w in ws && Anchored(w) ensures Stands(t, w) {
        var g :| g in b.graphs && WritesOf(fts, fingerprint, g, w);
        GraphStands(fts, fingerprint, b, t, g, w);
      }
    }
    if AllStand(t, ws) {
      forall g | g in b.graphs
        ensures Node(g) in t.sources && t.sources[Node(g)].hash == g.record.row.hash
        ensures g.replaceChunks ==> StaleChunks(t, Node(g), Wanted(g.chunks)) == {}
        ensures forall p | p in g.chunks :: PieceKey(fingerprint, Node(g), p) in t.chunks && t.chunks[PieceKey(fingerprint, Node(g), p)].hash == p.row.hash
      {
        StandingGraph(fts, fingerprint, b, ws, t, g);
      }
    }
  }

  lemma PublishedWritesGraphs(fts: bool, fingerprint: Fingerprint, now: string, b: Batch, t: Tables)
    requires ExecAll(t, BatchWrites(fts, fingerprint, now, b)).Some?
    ensures WritesGraphs(fts, fingerprint, b, Published(fts, fingerprint, now, b))
  {
    forall g | g in b.graphs ensures var published := Published(fts, fingerprint, now, b);
            && PutSource(Node(g), StoredSource(g)) in published
            && (g.replaceChunks ==> TrimChunks(Node(g), Wanted(g.chunks)) in published)
            && forall p | p in g.chunks :: PutChunk(PieceKey(fingerprint, Node(g), p), StoredPiece(Node(g), p)) in published
    {
      GraphIsWritten(fts, fingerprint, now, b, t, g);
    }
    forall w | w in Published(fts, fingerprint, now, b) && Anchored(w)
      ensures exists g :: g in b.graphs && WritesOf(fts, fingerprint, g, w)
    {
      AnchoredIsOfGraph(fts, fingerprint, now, b, w);
    }
  }

  /** Whatever a batch contains: committed again, at the same time or with explicit times, it leaves every table
      unchanged, content generation and embeddings included, if and only if its first run left every graph's source and
      chunks in place with the hashes that the graph gives them, and nothing that a replacing graph would trim;
      otherwise the generation moves. */
  lemma ReplayIsExact(fts: bool, fingerprint: Fingerprint, now: string, later: string, t: Tables, b: Batch, s: Tables, u: Tables)
    requires Referential(t) && (later == now || ExplicitTimes(b))
    requires ExecAll(t, BatchWrites(fts, fingerprint, now, b)) == Some(s)
    requires ExecAll(s, BatchWrites(fts, fingerprint, later, b)) == Some(u)
    ensures u == s <==> GraphsStand(fingerprint, b, s)
    ensures u == s || exists repo :: Generation(s, repo) < Generation(u, repo)
  {
    var published, closing := Published(fts, fingerprint, now, b), Reconciled(b) + Checkpoint(now, b);
    if later != now { ClockIsIrrelevant(fts, fingerprint, now, later, b); }
    assert BatchWrites(fts, fingerprint, now, b) == published + closing;
    PublishedIsPublishing(fts, fingerprint, now, b);
    ClosingIsConsistent(now, b);
    PublishedWritesGraphs(fts, fingerprint, now, b, t);
    GraphsAreRooted(fts, fingerprint, b, published);
    StandingOfGraphs(fts, fingerprint, b, published, s);
    ReplayStatements(t, published, closing, s, u);
  }

  /** So a replay after a crash, committed or rolled back, cannot tell. */
  lemma ReplayIsHarmless(fts: bool, fingerprint: Fingerprint, now: string, later: string, t: Tables, b: Batch, s: Tables)
    requires Referential(t) && (later == now || ExplicitTimes(b))
    requires ExecAll(t, BatchWrites(fts, fingerprint, now, b)) == Some(s) && GraphsStand(fingerprint, b, s)
    ensures Committed(s, BatchWrites(fts, fingerprint, later, b)) == s
  {
    if ExecAll(s, BatchWrites(fts, fingerprint, later, b)).Some? {
      ReplayIsExact(fts, fingerprint, now, later, t, b, s, ExecAll(s, BatchWrites(fts, fingerprint, later, b)).value);
    }
  }

  lemma SurvivingSource(fts: bool, fingerprint: Fingerprint, now: string, t: Tables, b: Batch, s: Tables, g: SyncGraph)
    requires WellFormed(fingerprint, b) && ExecAll(t, BatchWrites(fts, fingerprint, now, b)) == Some(s) && g in b.graphs
    ensures Node(g) in s.sources ==> s.sources[Node(g)].hash == g.record.row.hash
  {
    var published, closing := Published(fts, fingerprint, now, b), Reconciled(b) + Checkpoint(now, b);
    assert BatchWrites(fts, fingerprint, now, b) == published + closing;
    BatchIsConsistent(fts, fingerprint, now, b);
    GraphIsWritten(fts, fingerprint, now, b, t, g);
    BatchSettles(t, published, closing, PutSource(Node(g), StoredSource(g)));
  }

  /** The hashes need no mention where a batch has one graph a record and one row a chunk key. */
  lemma WellFormedStands(fts: bool, fingerprint: Fingerprint, now: string, t: Tables, b: Batch, s: Tables)
    requires WellFormed(fingerprint, b) && ExecAll(t, BatchWrites(fts, fingerprint, now, b)) == Some(s)
    ensures GraphsStand(fingerprint, b, s) <==> GraphsSurvived(fingerprint, b, s) && NothingToTrim(b, s)
  {
    forall g | g in b.graphs ensures Node(g) in s.sources ==> s.sources[Node(g)].hash == g.record.row.hash {
      SurvivingSource(fts, fingerprint, now, t, b, s, g);
    }
    forall g, p | g in b.graphs && p in g.chunks
      ensures var c := PieceKey(fingerprint, Node(g), p); c in s.chunks ==> s.chunks[c].hash == p.row.hash
    {
      StoredHash(fts, fingerprint, now, t, b, s, g, p);
    }
  }
}
