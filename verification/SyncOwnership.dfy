/** Sync batches that store chunks under keys that no other source holds: their graphs keep their chunks. */
module SyncOwnership {
  import opened Wrappers
  import opened Records
  import opened RecordsContent
  import opened RecordsChunks
  import opened SyncBatch
  import opened SyncReplay
  import opened SyncIdempotence
  import opened SyncStatements
  import opened SyncTrimming
  import opened SyncBatchReplay

  // ---- chunks that no other source owned are the graph's own ----

  /** If the chunk exists it belongs to the source that w writes it for. */
  predicate Own(t: Tables, w: Write)
    requires w.PutChunk?
  {
    w.chunk in t.chunks ==> t.chunks[w.chunk].source == w.piece.source
  }

  lemma OwnStep(t: Tables, w: Write, v: Write)
    requires w.PutChunk? && Own(t, w) && Compatible(w, v) && Exec(t, v).Some?
    ensures Own(Exec(t, v).value, w)
  {
    if v.PutChunk? {
      ChunkUpserted(t, v.chunk, v.piece);
    } else {
      OthersThinChunks(t, v);
    }
  }

  lemma {:induction false} OwnThrough(t: Tables, ws: seq<Write>, w: Write)
    requires w.PutChunk? && Own(t, w) && CompatibleWithAll(w, ws) && ExecAll(t, ws).Some?
    ensures Own(ExecAll(t, ws).value, w)
    decreases |ws|
  {
    if ws != [] {
      OwnStep(t, w, ws[0]);
      OwnThrough(Exec(t, ws[0]).value, ws[1..], w);
    }
  }

  /** Chunk keys of the batch that are in use belong to the same source. */
  predicate KeysAreOwn(fingerprint: Fingerprint, t: Tables, b: Batch) {
    forall g, p | g in b.graphs && p in g.chunks && PieceKey(fingerprint, Node(g), p) in t.chunks ::
      t.chunks[PieceKey(fingerprint, Node(g), p)].source == g.record.id
  }

  /** No replacing graph has a piece whose key it does not want: a condition on the batch alone. */
  predicate WantsItsKeys(fingerprint: Fingerprint, b: Batch) {
    forall g, p | g in b.graphs && g.replaceChunks && p in g.chunks :: !Unwanted(fingerprint, Node(g), g.chunks, p)
  }

  lemma ConsistentWith(ws: seq<Write>, w: Write)
    requires Consistent(ws) && w in ws
    ensures CompatibleWithAll(w, ws)
  {
  }

  lemma PieceIsCompatible(fts: bool, fingerprint: Fingerprint, now: string, t: Tables, b: Batch, g: SyncGraph, p: Piece)
    requires WellFormed(fingerprint, b) && ExecAll(t, BatchWrites(fts, fingerprint, now, b)).Some? && g in b.graphs && p in g.chunks
    ensures CompatibleWithAll(PutChunk(PieceKey(fingerprint, Node(g), p), StoredPiece(Node(g), p)), BatchWrites(fts, fingerprint, now, b))
  {
    var ws := Published(fts, fingerprint, now, b) + (Reconciled(b) + Checkpoint(now, b));
    assert BatchWrites(fts, fingerprint, now, b) == ws;
    BatchIsConsistent(fts, fingerprint, now, b);
    GraphIsWritten(fts, fingerprint, now, b, t, g);
    ConsistentWith(ws, PutChunk(PieceKey(fingerprint, Node(g), p), StoredPiece(Node(g), p)));
  }

  lemma SurvivorIsOwn(fts: bool, fingerprint: Fingerprint, now: string, t: Tables, b: Batch, s: Tables, g: SyncGraph, p: Piece)
    requires WellFormed(fingerprint, b) && OwnPieces(b) && KeysAreOwn(fingerprint, t, b)
    requires ExecAll(t, BatchWrites(fts, fingerprint, now, b)) == Some(s) && g in b.graphs && p in g.chunks
    ensures PieceKey(fingerprint, Node(g), p) in s.chunks ==> Stored(fingerprint, s, Node(g), p)
  {
    OwnPiece(fingerprint, b, g, p);
    PieceIsCompatible(fts, fingerprint, now, t, b, g, p);
    OwnThrough(t, BatchWrites(fts, fingerprint, now, b), PutChunk(PieceKey(fingerprint, Node(g), p), StoredPiece(Node(g), p)));
    StoredHash(fts, fingerprint, now, t, b, s, g, p);
  }

  /** For a batch whose pieces are its graphs' own: committed again it changes nothing if and only if the first run
      left every graph's source and chunks in place and no replacing graph has stored a piece for its own source
      under a key that it does not want. */
  lemma OwnBatchReplay(fts: bool, fingerprint: Fingerprint, now: string, later: string, t: Tables, b: Batch, s: Tables, u: Tables)
    requires Referential(t) && WellFormed(fingerprint, b) && (later == now || ExplicitTimes(b)) && OwnPieces(b) && Names(fingerprint)
    requires ExecAll(t, BatchWrites(fts, fingerprint, now, b)) == Some(s)
    requires ExecAll(s, BatchWrites(fts, fingerprint, later, b)) == Some(u)
    ensures u == s <==> GraphsSurvived(fingerprint, b, s) && !TrimsItself(fingerprint, b, s)
  {
    ReplayIsExact(fts, fingerprint, now, later, t, b, s, u);
    WellFormedStands(fts, fingerprint, now, t, b, s);
    NothingToTrimMeans(fts, fingerprint, now, t, b, s);
  }

  /** If the batch's chunk keys were not another source's, then its replay changes nothing if and only if its graphs
      survived and its replacing graphs want the keys of all their pieces. */
  lemma OwnedBatchReplay(fts: bool, fingerprint: Fingerprint, now: string, later: string, t: Tables, b: Batch, s: Tables, u: Tables)
    requires Referential(t) && WellFormed(fingerprint, b)
    requires (later == now || ExplicitTimes(b)) && OwnPieces(b) && Names(fingerprint) && KeysAreOwn(fingerprint, t, b)
    requires ExecAll(t, BatchWrites(fts, fingerprint, now, b)) == Some(s)
    requires ExecAll(s, BatchWrites(fts, fingerprint, later, b)) == Some(u)
    ensures u == s <==> GraphsSurvived(fingerprint, b, s) && WantsItsKeys(fingerprint, b)
  {
    OwnBatchReplay(fts, fingerprint, now, later, t, b, s, u);
    if GraphsSurvived(fingerprint, b, s) {
      forall g, p | g in b.graphs && p in g.chunks ensures Stored(fingerprint, s, Node(g), p) {
        SurvivorIsOwn(fts, fingerprint, now, t, b, s, g, p);
      }
    }
  }

  // ---- a source that trims its chunks stores them again ----

  predicate TrimsOwner(v: Write, w: Write)
    requires w.PutChunk?
  {
    v.TrimChunks? && v.node == OfChunk(w.chunk, w.piece)
  }

  /** Every trimming of the chunk's source is followed by w. */
  ghost predicate Restored(ws: seq<Write>, w: Write)
    requires w.PutChunk?
  {
    forall i | 0 <= i < |ws| && TrimsOwner(ws[i], w) :: w in ws[i..]
  }

  lemma StayStep(t: Tables, w: Write, v: Write)
    requires w.PutChunk? && w.chunk in t.chunks && Own(t, w) && Publishing(v) && !TrimsOwner(v, w) && Exec(t, v).Some?
    ensures w.chunk in Exec(t, v).value.chunks
  {
    PublishingFrame(t, v);
    if v.TrimChunks? {
      assert w.chunk !in StaleChunks(t, v.node, v.wanted);
    }
  }

  lemma {:induction false} OwnChunkIsStored(t: Tables, ws: seq<Write>, w: Write)
    requires w.PutChunk? && Own(t, w) && AllPublishing(ws) && CompatibleWithAll(w, ws) && Restored(ws, w) && ExecAll(t, ws).Some?
    requires w.chunk in t.chunks || w in ws
    ensures w.chunk in ExecAll(t, ws).value.chunks
    decreases |ws|
  {
    if ws != [] {
      var v := ws[0];
      OwnStep(t, w, v);
      if v == w {
        ChunkUpserted(t, w.chunk, w.piece);
      } else if TrimsOwner(v, w) {
        assert ws[0..] == ws;
      } else if w.chunk in t.chunks {
        StayStep(t, w, v);
      }
      RestoredOnward(ws, w);
      OwnChunkIsStored(Exec(t, v).value, ws[1..], w);
    }
  }

  lemma RestoredOnward(ws: seq<Write>, w: Write)
    requires w.PutChunk? && Restored(ws, w) && ws != []
    ensures Restored(ws[1..], w)
  {
    forall i | 0 <= i < |ws[1..]| && TrimsOwner(ws[1..][i], w) ensures w in ws[1..][i..] {
      assert ws[1..][i..] == ws[i + 1..] && TrimsOwner(ws[i + 1], w);
    }
  }

  lemma RestoredTogether(xs: seq<Write>, ys: seq<Write>, w: Write)
    requires w.PutChunk? && Restored(xs, w) && Restored(ys, w)
    ensures Restored(xs + ys, w)
  {
    forall i | 0 <= i < |xs + ys| && TrimsOwner((xs + ys)[i], w) ensures w in (xs + ys)[i..] {
      if i < |xs| {
        assert (xs + ys)[i..] == xs[i..] + ys;
      } else {
        assert (xs + ys)[i..] == ys[i - |xs|..];
      }
    }
  }

  lemma {:induction false} RestoredEach(xss: seq<seq<Write>>, w: Write)
    requires w.PutChunk? && forall xs | xs in xss :: Restored(xs, w)
    ensures Restored(Concat(xss), w)
    decreases |xss|
  {
    if xss != [] {
      RestoredEach(xss[1..], w);
      RestoredTogether(xss[0], Concat(xss[1..]), w);
    }
  }

  lemma NothingTrimmed(ws: seq<Write>, w: Write)
    requires w.PutChunk? && forall v | v in ws :: !v.TrimChunks?
    ensures Restored(ws, w)
  {
  }

  lemma TrimmedFirst(ws: seq<Write>, w: Write)
    requires w.PutChunk? && ws != [] && (TrimsOwner(ws[0], w) ==> w in ws) && forall v | v in ws[1..] :: !v.TrimChunks?
    ensures Restored(ws, w)
  {
    assert ws[0..] == ws;
    assert forall i | 0 < i < |ws| :: ws[i] in ws[1..];
  }

  lemma PiecesRestored(fingerprint: Fingerprint, b: Batch, g: SyncGraph, p: Piece, h: SyncGraph)
    requires WellFormed(fingerprint, b) && OwnPieces(b) && g in b.graphs && h in b.graphs && p in g.chunks
    ensures Restored(ChunkWrites(fingerprint, h), PutChunk(PieceKey(fingerprint, Node(g), p), StoredPiece(Node(g), p)))
  {
    var w := PutChunk(PieceKey(fingerprint, Node(g), p), StoredPiece(Node(g), p));
    var pieces := StorePieces(fingerprint, Node(h), h.chunks);
    OwnPiece(fingerprint, b, g, p);
    NothingTrimmed(pieces, w);
    if h.replaceChunks {
      var ws := [TrimChunks(Node(h), Wanted(h.chunks))] + pieces;
      if h == g {
        var i :| 0 <= i < |g.chunks| && g.chunks[i] == p;
        assert pieces[i] == w && ws[1 + i] == w;
      }
      assert ws[1..] == pieces;
      TrimmedFirst(ws, w);
    }
  }

  lemma GraphRestores(fts: bool, fingerprint: Fingerprint, b: Batch, g: SyncGraph, p: Piece, h: SyncGraph)
    requires WellFormed(fingerprint, b) && OwnPieces(b) && g in b.graphs && h in b.graphs && p in g.chunks
    ensures Restored(GraphWrites(fts, fingerprint, h), PutChunk(PieceKey(fingerprint, Node(g), p), StoredPiece(Node(g), p)))
  {
    var w := PutChunk(PieceKey(fingerprint, Node(g), p), StoredPiece(Node(g), p));
    if GraphRepo(h) == "" {
      NothingTrimmed([Reject], w);
    } else {
      var rows := NodeWrites(fts, h) + AttachmentWrites(h);
      assert forall v | v in AttachmentWrites(h) :: v.PutComment? || v.PutIdentity? || v.PutLink? || v.PutRevision?;
      NothingTrimmed(rows, w);
      PiecesRestored(fingerprint, b, g, p, h);
      RestoredTogether(rows, ChunkWrites(fingerprint, h), w);
    }
  }

  function CommentRows(now: string, b: Batch): seq<Write> {
    Each(i => CommentSyncWrite(now, i), b.commentSyncs) + Each(k => ClearComments(k), b.cleared) + Concat(Each(r => ReplacementWrites(r), b.replaced))
  }

  function GraphParts(fts: bool, fingerprint: Fingerprint, b: Batch): seq<seq<Write>> {
    Each(h => GraphWrites(fts, fingerprint, h), b.graphs)
  }

  lemma PublishedParts(fts: bool, fingerprint: Fingerprint, now: string, b: Batch)
    ensures Published(fts, fingerprint, now, b) == Concat(GraphParts(fts, fingerprint, b)) + CommentRows(now, b)
  {
    Regroup(Concat(GraphParts(fts, fingerprint, b)), Each(i => CommentSyncWrite(now, i), b.commentSyncs),
            Each(k => ClearComments(k), b.cleared), Concat(Each(r => ReplacementWrites(r), b.replaced)));
  }

  lemma Regroup<T>(a: seq<T>, b: seq<T>, c: seq<T>, d: seq<T>)
    ensures a + b + c + d == a + (b + c + d)
  {
  }

  lemma CommentsTrimNothing(now: string, b: Batch)
    ensures forall v | v in CommentRows(now, b) :: !v.TrimChunks?
  {
    var replacements := Each(r => ReplacementWrites(r), b.replaced);
    forall v: Write | v in Concat(replacements) ensures !v.TrimChunks? {
      var i := InConcat(replacements, v);
      assert v in ReplacementWrites(b.replaced[i]);
    }
  }

  lemma PublishedRestores(fts: bool, fingerprint: Fingerprint, now: string, b: Batch, g: SyncGraph, p: Piece)
    requires WellFormed(fingerprint, b) && OwnPieces(b) && g in b.graphs && p in g.chunks
    ensures Restored(Published(fts, fingerprint, now, b), PutChunk(PieceKey(fingerprint, Node(g), p), StoredPiece(Node(g), p)))
  {
    var w := PutChunk(PieceKey(fingerprint, Node(g), p), StoredPiece(Node(g), p));
    var graphs := GraphParts(fts, fingerprint, b);
    forall xs | xs in graphs ensures Restored(xs, w) {
      var i :| 0 <= i < |graphs| && graphs[i] == xs;
      GraphRestores(fts, fingerprint, b, g, p, b.graphs[i]);
    }
    RestoredEach(graphs, w);
    CommentsTrimNothing(now, b);
    NothingTrimmed(CommentRows(now, b), w);
    RestoredTogether(Concat(graphs), CommentRows(now, b), w);
    PublishedParts(fts, fingerprint, now, b);
  }
}
