/** What the statements of a sync batch look like, and why those of a well-formed batch are compatible. */
module SyncStatements {
  import opened Wrappers
  import opened Records
  import opened RecordsContent
  import opened RecordsChunks
  import opened SyncBatch
  import opened SyncReplay
  import opened SyncIdempotence

  // ---- trimming counts as a change ----

  /** A statement that leaves a chunk there leaves it its source. */
  lemma OwnerStays(t: Tables, v: Write, c: ChunkKey)
    requires Exec(t, v).Some? && c in t.chunks && c in Exec(t, v).value.chunks
    ensures Exec(t, v).value.chunks[c].source == t.chunks[c].source
  {
    if !WritesContent(v) {
      ContentSpared(t, v);
    } else if v.PutChunk? {
      ChunkUpserted(t, v.chunk, v.piece);
    }
  }

  /** Trimming what is stale takes it away; so does any statement that changes its hash. */
  lemma StaleStep(t: Tables, v: Write, k: NodeKey, wanted: map<string, string>, c: ChunkKey)
    requires Exec(t, v).Some? && c in StaleChunks(t, k, wanted)
    requires Generation(t, k.repo) == Generation(Exec(t, v).value, k.repo)
    ensures v != TrimChunks(k, wanted) && c in StaleChunks(Exec(t, v).value, k, wanted)
  {
    ExecStamps(t, v, k.repo);
    OwnerStays(t, v, c);
  }

  lemma {:induction false} StaleGrows(t: Tables, ws: seq<Write>, k: NodeKey, wanted: map<string, string>, c: ChunkKey)
    requires ExecAll(t, ws).Some? && TrimChunks(k, wanted) in ws && c in StaleChunks(t, k, wanted)
    ensures Generation(t, k.repo) < Generation(ExecAll(t, ws).value, k.repo)
    decreases |ws|
  {
    var u := Exec(t, ws[0]).value;
    ExecStamps(t, ws[0], k.repo);
    ExecAllStamps(u, ws[1..], k.repo);
    if Generation(t, k.repo) == Generation(u, k.repo) {
      StaleStep(t, ws[0], k, wanted, c);
      StaleGrows(u, ws[1..], k, wanted, c);
    }
  }

  lemma MissingTrimGrows(t: Tables, ws: seq<Write>, w: Write)
    requires ExecAll(t, ws).Some? && w in ws && w.TrimChunks? && !NothingStale(t.chunks, w.node, w.wanted)
    ensures Generation(t, w.node.repo) < Generation(ExecAll(t, ws).value, w.node.repo)
  {
    NothingStaleMeans(t, w.node, w.wanted);
    var c :| c in StaleChunks(t, w.node, w.wanted);
    StaleGrows(t, ws, w.node, w.wanted, c);
  }

  /** A search row or record is only written along with its source. */
  ghost predicate Rooted(ws: seq<Write>) {
    forall w | w in ws && (w.PutSearch? || w.PutRecord?) :: exists v :: v in ws && v.PutSource? && v.node == w.node
  }

  // ---- replay, statement by statement ----

  // ---- what a batch's statements look like ----

  lemma {:induction false} InConcat<T>(xss: seq<seq<T>>, x: T) returns (i: nat)
    requires x in Concat(xss)
    ensures i < |xss| && x in xss[i]
    decreases |xss|
  {
    if x in xss[0] {
      i := 0;
    } else {
      var j := InConcat(xss[1..], x);
      i := j + 1;
    }
  }

  lemma {:induction false} OfConcat<T>(xss: seq<seq<T>>, i: nat, x: T)
    requires i < |xss| && x in xss[i]
    ensures x in Concat(xss)
    decreases |xss|
  {
    if i > 0 { OfConcat(xss[1..], i - 1, x); }
  }

  /** What one graph writes to the core tables. */
  ghost predicate WritesOf(fts: bool, fingerprint: Fingerprint, g: SyncGraph, w: Write) {
    && Publishing(w)
    && (w.PutSource? ==> w == PutSource(Node(g), StoredSource(g)))
    && (w.PutSearch? ==> w == PutSearch(Node(g), Projection(StoredRecord(g).path, StoredRecord(g).title, StoredRecord(g).body)))
    && (w.PutRecord? ==> w == PutRecord(Node(g), StoredRecord(g)))
    && (w.TrimChunks? ==> g.replaceChunks && w == TrimChunks(Node(g), Wanted(g.chunks)))
    && (w.PutChunk? ==> exists p :: p in g.chunks && w == PutChunk(PieceKey(fingerprint, Node(g), p), StoredPiece(Node(g), p)))
  }

  lemma NodeWritesOf(fts: bool, fingerprint: Fingerprint, g: SyncGraph, w: Write)
    requires w in NodeWrites(fts, g)
    ensures WritesOf(fts, fingerprint, g, w)
  {
  }

  lemma AttachmentWritesOf(fts: bool, fingerprint: Fingerprint, g: SyncGraph, w: Write)
    requires w in AttachmentWrites(g)
    ensures WritesOf(fts, fingerprint, g, w)
  {
    assert w.PutComment? || w.PutIdentity? || w.PutLink? || w.PutRevision?;
  }

  lemma ChunkWritesOf(fts: bool, fingerprint: Fingerprint, g: SyncGraph, w: Write)
    requires w in ChunkWrites(fingerprint, g)
    ensures WritesOf(fts, fingerprint, g, w)
  {
    if w in StorePieces(fingerprint, Node(g), g.chunks) {
      var i :| 0 <= i < |g.chunks| && w == PutChunk(PieceKey(fingerprint, Node(g), g.chunks[i]), StoredPiece(Node(g), g.chunks[i]));
      assert g.chunks[i] in g.chunks;
    }
  }

  lemma GraphWritesOf(fts: bool, fingerprint: Fingerprint, g: SyncGraph, w: Write)
    requires w in GraphWrites(fts, fingerprint, g)
    ensures WritesOf(fts, fingerprint, g, w)
  {
    if w in NodeWrites(fts, g) {
      NodeWritesOf(fts, fingerprint, g, w);
    } else if w in AttachmentWrites(g) {
      AttachmentWritesOf(fts, fingerprint, g, w);
    } else if w in ChunkWrites(fingerprint, g) {
      ChunkWritesOf(fts, fingerprint, g, w);
    }
  }

  /** A published statement is some graph's, or about comments and comment syncs. */
  lemma PublishedOf(fts: bool, fingerprint: Fingerprint, now: string, b: Batch, w: Write) returns (g: Option<SyncGraph>)
    requires w in Published(fts, fingerprint, now, b)
    ensures g.Some? ==> g.value in b.graphs && w in GraphWrites(fts, fingerprint, g.value)
    ensures g.None? ==> w.PutCommentSync? || w.ClearComments? || w.PutComment?
  {
    var graphs := Each(g => GraphWrites(fts, fingerprint, g), b.graphs);
    var replacements := Each(r => ReplacementWrites(r), b.replaced);
    if w in Concat(graphs) {
      var i := InConcat(graphs, w);
      return Some(b.graphs[i]);
    }
    if w in Concat(replacements) {
      var i := InConcat(replacements, w);
      assert w in ReplacementWrites(b.replaced[i]);
    }
    return None;
  }

  // ---- a well-formed batch is consistent ----

  lemma GraphsCompatible(fts: bool, fingerprint: Fingerprint, b: Batch, g: SyncGraph, w: Write, h: SyncGraph, v: Write)
    requires WellFormed(fingerprint, b) && g in b.graphs && h in b.graphs
    requires WritesOf(fts, fingerprint, g, w) && WritesOf(fts, fingerprint, h, v)
    ensures Compatible(w, v)
  {
    if v.PutChunk? && w.PutChunk? {
      var q :| q in h.chunks && v == PutChunk(PieceKey(fingerprint, Node(h), q), StoredPiece(Node(h), q));
      var p :| p in g.chunks && w == PutChunk(PieceKey(fingerprint, Node(g), p), StoredPiece(Node(g), p));
    }
  }

  lemma PublishedCompatible(fts: bool, fingerprint: Fingerprint, now: string, b: Batch, w: Write, v: Write)
    requires WellFormed(fingerprint, b) && w in Published(fts, fingerprint, now, b) && v in Published(fts, fingerprint, now, b)
    ensures Compatible(w, v) && Publishing(w)
  {
    var g := PublishedOf(fts, fingerprint, now, b, w);
    var h := PublishedOf(fts, fingerprint, now, b, v);
    if g.Some? {
      GraphWritesOf(fts, fingerprint, g.value, w);
      if h.Some? {
        GraphWritesOf(fts, fingerprint, h.value, v);
        GraphsCompatible(fts, fingerprint, b, g.value, w, h.value, v);
      }
    }
  }

  lemma ClosingOf(now: string, b: Batch, w: Write)
    requires w in Reconciled(b) + Checkpoint(now, b)
    ensures Closing(w)
  {
  }

  lemma ClosingCompatible(now: string, b: Batch, w: Write, v: Write)
    requires w in Reconciled(b) + Checkpoint(now, b) && v in Reconciled(b) + Checkpoint(now, b)
    ensures Compatible(w, v)
  {
    assert w in Reconciled(b) ==> w.DropStaleChildren?;
    assert v in Reconciled(b) ==> v.DropStaleChildren?;
  }

  lemma PublishedIsPublishing(fts: bool, fingerprint: Fingerprint, now: string, b: Batch)
    ensures AllPublishing(Published(fts, fingerprint, now, b))
  {
    forall w | w in Published(fts, fingerprint, now, b) ensures Publishing(w) {
      var g := PublishedOf(fts, fingerprint, now, b, w);
      if g.Some? { GraphWritesOf(fts, fingerprint, g.value, w); }
    }
  }

  lemma ClosingIsConsistent(now: string, b: Batch)
    ensures AllClosing(Reconciled(b) + Checkpoint(now, b)) && Consistent(Reconciled(b) + Checkpoint(now, b))
  {
    var closing := Reconciled(b) + Checkpoint(now, b);
    forall w | w in closing ensures Closing(w) { ClosingOf(now, b, w); }
    forall w, v | w in closing && v in closing ensures Compatible(w, v) { ClosingCompatible(now, b, w, v); }
  }

  lemma PhasesAreCompatible(published: seq<Write>, closing: seq<Write>, w: Write, v: Write)
    requires AllPublishing(published) && AllClosing(closing)
    requires (w in published && v in closing) || (w in closing && v in published)
    ensures Compatible(w, v)
  {
    assert Publishing(if w in published then w else v) && Closing(if v in closing then v else w);
  }

  lemma BatchIsConsistent(fts: bool, fingerprint: Fingerprint, now: string, b: Batch)
    requires WellFormed(fingerprint, b)
    ensures AllPublishing(Published(fts, fingerprint, now, b)) && AllClosing(Reconciled(b) + Checkpoint(now, b))
    ensures Consistent(Published(fts, fingerprint, now, b) + (Reconciled(b) + Checkpoint(now, b)))
  {
    var published, closing := Published(fts, fingerprint, now, b), Reconciled(b) + Checkpoint(now, b);
    PublishedIsPublishing(fts, fingerprint, now, b);
    ClosingIsConsistent(now, b);
    forall w, v | w in published + closing && v in published + closing ensures Compatible(w, v) {
      if w in published && v in published {
        PublishedCompatible(fts, fingerprint, now, b, w, v);
      } else if !(w in closing && v in closing) {
        PhasesAreCompatible(published, closing, w, v);
      }
    }
  }

  // ---- survival, in terms of the batch ----

  /** The node of every graph and all its chunks are there. */
  ghost predicate GraphsSurvived(fingerprint: Fingerprint, b: Batch, t: Tables) {
    forall g | g in b.graphs ::
      && Node(g) in t.sources
      && forall p | p in g.chunks :: PieceKey(fingerprint, Node(g), p) in t.chunks
  }

  /** No graph that replaces its chunks would find one to delete. */
  predicate NothingToTrim(b: Batch, t: Tables) {
    forall g | g in b.graphs && g.replaceChunks :: StaleChunks(t, Node(g), Wanted(g.chunks)) == {}
  }

  lemma {:induction false} RejectFails(t: Tables, ws: seq<Write>)
    requires Reject in ws
    ensures ExecAll(t, ws).None?
    decreases |ws|
  {
    if ws[0] != Reject && Exec(t, ws[0]).Some? { RejectFails(Exec(t, ws[0]).value, ws[1..]); }
  }

  lemma GraphIsPublished(fts: bool, fingerprint: Fingerprint, now: string, b: Batch, g: SyncGraph, w: Write)
    requires g in b.graphs && w in GraphWrites(fts, fingerprint, g)
    ensures w in Published(fts, fingerprint, now, b)
  {
    var i :| 0 <= i < |b.graphs| && b.graphs[i] == g;
    OfConcat(Each(g => GraphWrites(fts, fingerprint, g), b.graphs), i, w);
  }

  lemma AnchorsOf(fts: bool, fingerprint: Fingerprint, g: SyncGraph)
    requires GraphRepo(g) != ""
    ensures PutSource(Node(g), StoredSource(g)) in GraphWrites(fts, fingerprint, g)
    ensures forall p | p in g.chunks :: PutChunk(PieceKey(fingerprint, Node(g), p), StoredPiece(Node(g), p)) in GraphWrites(fts, fingerprint, g)
  {
    assert NodeWrites(fts, g)[1] == PutSource(Node(g), StoredSource(g));
    forall p | p in g.chunks ensures PutChunk(PieceKey(fingerprint, Node(g), p), StoredPiece(Node(g), p)) in ChunkWrites(fingerprint, g) {
      var i :| 0 <= i < |g.chunks| && g.chunks[i] == p;
      assert StorePieces(fingerprint, Node(g), g.chunks)[i] in StorePieces(fingerprint, Node(g), g.chunks);
    }
  }

  lemma TrimsOf(fts: bool, fingerprint: Fingerprint, g: SyncGraph)
    requires GraphRepo(g) != "" && g.replaceChunks
    ensures TrimChunks(Node(g), Wanted(g.chunks)) in GraphWrites(fts, fingerprint, g)
  {
    assert ChunkWrites(fingerprint, g)[0] == TrimChunks(Node(g), Wanted(g.chunks));
  }

  /** The statements by which a batch writes its graphs' nodes and chunks and trims the latter. */
  ghost predicate WritesGraphs(fts: bool, fingerprint: Fingerprint, b: Batch, ws: seq<Write>) {
    && (forall g | g in b.graphs :: PutSource(Node(g), StoredSource(g)) in ws)
    && (forall g | g in b.graphs && g.replaceChunks :: TrimChunks(Node(g), Wanted(g.chunks)) in ws)
    && (forall g, p | g in b.graphs && p in g.chunks :: PutChunk(PieceKey(fingerprint, Node(g), p), StoredPiece(Node(g), p)) in ws)
    && (forall w | w in ws && Anchored(w) :: exists g :: g in b.graphs && WritesOf(fts, fingerprint, g, w))
  }

  lemma ReposAreNamed(fts: bool, fingerprint: Fingerprint, now: string, b: Batch, t: Tables, g: SyncGraph)
    requires ExecAll(t, BatchWrites(fts, fingerprint, now, b)).Some? && g in b.graphs
    ensures GraphRepo(g) != ""
  {
    if GraphRepo(g) == "" {
      GraphIsPublished(fts, fingerprint, now, b, g, Reject);
      RejectFails(t, BatchWrites(fts, fingerprint, now, b));
    }
  }

  lemma GraphIsWritten(fts: bool, fingerprint: Fingerprint, now: string, b: Batch, t: Tables, g: SyncGraph)
    requires ExecAll(t, BatchWrites(fts, fingerprint, now, b)).Some? && g in b.graphs
    ensures var published := Published(fts, fingerprint, now, b);
            && PutSource(Node(g), StoredSource(g)) in published
            && (g.replaceChunks ==> TrimChunks(Node(g), Wanted(g.chunks)) in published)
            && forall p | p in g.chunks :: PutChunk(PieceKey(fingerprint, Node(g), p), StoredPiece(Node(g), p)) in published
  {
    ReposAreNamed(fts, fingerprint, now, b, t, g);
    AnchorsOf(fts, fingerprint, g);
    if g.replaceChunks { TrimsOf(fts, fingerprint, g); }
    forall w | w in GraphWrites(fts, fingerprint, g) ensures w in Published(fts, fingerprint, now, b) {
      GraphIsPublished(fts, fingerprint, now, b, g, w);
    }
  }

  lemma AnchoredIsOfGraph(fts: bool, fingerprint: Fingerprint, now: string, b: Batch, w: Write)
    requires w in Published(fts, fingerprint, now, b) + (Reconciled(b) + Checkpoint(now, b)) && Anchored(w)
    ensures exists g :: g in b.graphs && WritesOf(fts, fingerprint, g, w)
  {
    if w in Reconciled(b) + Checkpoint(now, b) { ClosingOf(now, b, w); }
    var g := PublishedOf(fts, fingerprint, now, b, w);
    GraphWritesOf(fts, fingerprint, g.value, w);
  }

  lemma BatchWritesGraphs(fts: bool, fingerprint: Fingerprint, now: string, b: Batch, t: Tables)
    requires ExecAll(t, BatchWrites(fts, fingerprint, now, b)).Some?
    ensures WritesGraphs(fts, fingerprint, b, Published(fts, fingerprint, now, b) + (Reconciled(b) + Checkpoint(now, b)))
  {
    forall g | g in b.graphs ensures var published := Published(fts, fingerprint, now, b);
            && PutSource(Node(g), StoredSource(g)) in published
            && (g.replaceChunks ==> TrimChunks(Node(g), Wanted(g.chunks)) in published)
            && forall p | p in g.chunks :: PutChunk(PieceKey(fingerprint, Node(g), p), StoredPiece(Node(g), p)) in published
    {
      GraphIsWritten(fts, fingerprint, now, b, t, g);
    }
    forall w | w in Published(fts, fingerprint, now, b) + (Reconciled(b) + Checkpoint(now, b)) && Anchored(w)
      ensures exists g :: g in b.graphs && WritesOf(fts, fingerprint, g, w)
    {
      AnchoredIsOfGraph(fts, fingerprint, now, b, w);
    }
  }

  lemma GraphsAreRooted(fts: bool, fingerprint: Fingerprint, b: Batch, ws: seq<Write>)
    requires WritesGraphs(fts, fingerprint, b, ws)
    ensures Rooted(ws)
  {
    forall w | w in ws && (w.PutSearch? || w.PutRecord?) ensures exists v :: v in ws && v.PutSource? && v.node == w.node {
      var g :| g in b.graphs && WritesOf(fts, fingerprint, g, w);
      assert PutSource(Node(g), StoredSource(g)) in ws;
    }
  }

  // ---- the theorem ----

}
