/** What a published graph or a committed batch leaves in the tables. */
module SyncStored {
  import opened Wrappers
  import opened Records
  import opened RecordsContent
  import opened SyncBatch
  import opened SyncReplay
  import opened SyncIdempotence
  import opened SyncStatements

  predicate Deletes(w: Write) {
    w.ClearComments? || w.TrimChunks? || w.DropLinks? || w.DropStaleChildren? || w.DropLive? || w.DropFrontiers?
  }

  /** The row that w wrote is there. */
  predicate Written(t: Tables, w: Write) {
    if w.PutSource? then w.node in t.sources
    else if w.PutSearch? then w.node in t.search
    else if w.PutRecord? then w.node in t.records
    else if w.PutComment? then w.comment in t.comments
    else if w.PutIdentity? then w.alias in t.identities
    else if w.PutLink? then w.link in t.links
    else if w.PutRevision? then w.node in t.revisions
    else if w.PutChunk? then w.chunk in t.chunks
    else w.PutConfirmation? ==> w.confirmation in t.confirmations
  }

  lemma WrittenNow(t: Tables, w: Write)
    requires !Deletes(w) && Exec(t, w).Some?
    ensures Written(Exec(t, w).value, w)
  {
  }

  ghost predicate Grows(t: Tables, u: Tables) {
    && t.sources.Keys <= u.sources.Keys && t.search.Keys <= u.search.Keys && t.records.Keys <= u.records.Keys
    && t.comments.Keys <= u.comments.Keys && t.identities.Keys <= u.identities.Keys && t.links <= u.links
    && t.revisions.Keys <= u.revisions.Keys && t.chunks.Keys <= u.chunks.Keys && t.confirmations.Keys <= u.confirmations.Keys
  }

  lemma RowGrows(t: Tables, v: Write)
    requires WritesRows(v) && !Deletes(v) && Exec(t, v).Some?
    ensures Grows(t, Exec(t, v).value)
  {
  }

  lemma AttachmentGrows(t: Tables, v: Write)
    requires Attaches(v) && !Deletes(v) && Exec(t, v).Some?
    ensures Grows(t, Exec(t, v).value)
  {
  }

  lemma ContentGrows(t: Tables, v: Write)
    requires (v.PutSource? || v.PutChunk?) && Exec(t, v).Some?
    ensures Grows(t, Exec(t, v).value)
  {
  }

  lemma OtherGrows(t: Tables, v: Write)
    requires !WritesRows(v) && !Attaches(v) && !WritesContent(v) && !Deletes(v) && Exec(t, v).Some?
    ensures Grows(t, Exec(t, v).value)
  {
  }

  lemma OnlyGrows(t: Tables, v: Write)
    requires !Deletes(v) && Exec(t, v).Some?
    ensures Grows(t, Exec(t, v).value)
  {
    if WritesRows(v) {
      RowGrows(t, v);
    } else if Attaches(v) {
      AttachmentGrows(t, v);
    } else if v.PutSource? || v.PutChunk? {
      ContentGrows(t, v);
    } else {
      OtherGrows(t, v);
    }
  }

  lemma StaysWritten(t: Tables, u: Tables, w: Write)
    requires Grows(t, u) && Written(t, w)
    ensures Written(u, w)
  {
  }

  ghost predicate NoDeletes(ws: seq<Write>) { forall w | w in ws :: !Deletes(w) }

  lemma {:induction false} AllGrow(t: Tables, ws: seq<Write>)
    requires NoDeletes(ws) && ExecAll(t, ws).Some?
    ensures Grows(t, ExecAll(t, ws).value)
    decreases |ws|
  {
    if ws != [] {
      OnlyGrows(t, ws[0]);
      AllGrow(Exec(t, ws[0]).value, ws[1..]);
    }
  }

  lemma {:induction false} AllWritten(t: Tables, ws: seq<Write>, w: Write)
    requires NoDeletes(ws) && ExecAll(t, ws).Some? && w in ws
    ensures Written(ExecAll(t, ws).value, w)
    decreases |ws|
  {
    var u := Exec(t, ws[0]).value;
    if w == ws[0] {
      WrittenNow(t, w);
      AllGrow(u, ws[1..]);
      StaysWritten(u, ExecAll(u, ws[1..]).value, w);
    } else {
      AllWritten(u, ws[1..], w);
    }
  }

  // ---- a sync graph ----

  lemma TrimSpares(t: Tables, k: NodeKey, wanted: map<string, string>, w: Write)
    requires Written(t, w) && !w.PutChunk?
    ensures Written(DeleteChunks(t, k.repo, StaleChunks(t, k, wanted)), w)
  {
  }

  lemma PiecesSpare(t: Tables, pieces: seq<Write>, w: Write)
    requires NoDeletes(pieces) && ExecAll(t, pieces).Some?
    ensures Written(t, w) || w in pieces ==> Written(ExecAll(t, pieces).value, w)
  {
    if w in pieces {
      AllWritten(t, pieces, w);
    } else if Written(t, w) {
      AllGrow(t, pieces);
      StaysWritten(t, ExecAll(t, pieces).value, w);
    }
  }

  lemma TrimmedPiecesSpare(t: Tables, k: NodeKey, wanted: map<string, string>, pieces: seq<Write>, w: Write)
    requires NoDeletes(pieces) && ExecAll(t, [TrimChunks(k, wanted)] + pieces).Some?
    ensures (Written(t, w) && !w.PutChunk?) || w in pieces ==> Written(ExecAll(t, [TrimChunks(k, wanted)] + pieces).value, w)
  {
    assert ([TrimChunks(k, wanted)] + pieces)[1..] == pieces;
    if Written(t, w) && !w.PutChunk? { TrimSpares(t, k, wanted, w); }
    PiecesSpare(DeleteChunks(t, k.repo, StaleChunks(t, k, wanted)), pieces, w);
  }

  lemma ChunkWritesSpare(fingerprint: Fingerprint, g: SyncGraph, t: Tables, w: Write)
    requires ExecAll(t, ChunkWrites(fingerprint, g)).Some?
    requires (Written(t, w) && !w.PutChunk?) || w in ChunkWrites(fingerprint, g)
    ensures Written(ExecAll(t, ChunkWrites(fingerprint, g)).value, w)
  {
    var pieces := StorePieces(fingerprint, Node(g), g.chunks);
    assert NoDeletes(pieces);
    if g.replaceChunks {
      assert ChunkWrites(fingerprint, g) == [TrimChunks(Node(g), Wanted(g.chunks))] + pieces;
      TrimmedPiecesSpare(t, Node(g), Wanted(g.chunks), pieces, w);
    } else {
      assert ChunkWrites(fingerprint, g) == pieces;
      PiecesSpare(t, pieces, w);
    }
  }

  lemma RowsDeleteNothing(fts: bool, g: SyncGraph, w: Write)
    requires w in NodeWrites(fts, g) + AttachmentWrites(g)
    ensures !Deletes(w) && !w.PutChunk?
  {
    if w in AttachmentWrites(g) { assert w.PutComment? || w.PutIdentity? || w.PutLink? || w.PutRevision?; }
  }

  lemma RowsThenChunks(fingerprint: Fingerprint, t: Tables, g: SyncGraph, rows: seq<Write>, w: Write)
    requires NoDeletes(rows) && (forall v | v in rows :: !v.PutChunk?)
    requires ExecAll(t, rows + ChunkWrites(fingerprint, g)).Some? && w in rows + ChunkWrites(fingerprint, g)
    ensures Written(ExecAll(t, rows + ChunkWrites(fingerprint, g)).value, w)
  {
    ExecAllConcat(t, rows, ChunkWrites(fingerprint, g));
    if w in rows { AllWritten(t, rows, w); }
    ChunkWritesSpare(fingerprint, g, ExecAll(t, rows).value, w);
  }

  lemma EveryGraphWriteIsWritten(fts: bool, fingerprint: Fingerprint, t: Tables, g: SyncGraph, w: Write)
    requires GraphRepo(g) != "" && ExecAll(t, GraphWrites(fts, fingerprint, g)).Some? && w in GraphWrites(fts, fingerprint, g)
    ensures Written(ExecAll(t, GraphWrites(fts, fingerprint, g)).value, w)
  {
    var rows := NodeWrites(fts, g) + AttachmentWrites(g);
    forall v | v in rows ensures !Deletes(v) && !v.PutChunk? { RowsDeleteNothing(fts, g, v); }
    RowsThenChunks(fingerprint, t, g, rows, w);
  }

  /** The graph is in the tables: its source and record with its rows (creation times and provider identity as the
      upsert keeps them), and every comment, identity, link, revision and chunk it brings. */
  ghost predicate GraphStored(fingerprint: Fingerprint, g: SyncGraph, u: Tables) {
    var k := Node(g);
    && Settled(u, PutSource(k, StoredSource(g))) && Settled(u, PutRecord(k, StoredRecord(g)))
    && (forall c | c in g.comments :: Written(u, CommentWrite(k, c)))
    && (forall i | i in g.identities :: Written(u, IdentityWrite(k, i)))
    && (forall l | l in g.links :: Written(u, LinkWrite(k, l)))
    && (forall r | r in g.revisions :: Written(u, RevisionWrite(k, r)))
    && (forall p | p in g.chunks :: PieceKey(fingerprint, k, p) in u.chunks)
  }

  lemma AttachmentsAreWrites(g: SyncGraph)
    ensures forall c | c in g.comments :: CommentWrite(Node(g), c) in AttachmentWrites(g)
    ensures forall i | i in g.identities :: IdentityWrite(Node(g), i) in AttachmentWrites(g)
    ensures forall l | l in g.links :: LinkWrite(Node(g), l) in AttachmentWrites(g)
    ensures forall r | r in g.revisions :: RevisionWrite(Node(g), r) in AttachmentWrites(g)
  {
    InEach(c => CommentWrite(Node(g), c), g.comments);
    InEach(i => IdentityWrite(Node(g), i), g.identities);
    InEach(l => LinkWrite(Node(g), l), g.links);
    InEach(r => RevisionWrite(Node(g), r), g.revisions);
  }

  lemma InEach<T, R>(f: T -> R, xs: seq<T>)
    ensures forall x | x in xs :: f(x) in Each(f, xs)
  {
    forall x | x in xs ensures f(x) in Each(f, xs) {
      var i :| 0 <= i < |xs| && xs[i] == x;
      assert Each(f, xs)[i] == f(x);
    }
  }

  lemma NodeIsSettled(fts: bool, fingerprint: Fingerprint, t: Tables, g: SyncGraph, w: Write)
    requires GraphRepo(g) != "" && ExecAll(t, GraphWrites(fts, fingerprint, g)).Some?
    requires w in GraphWrites(fts, fingerprint, g) && (w.PutSource? || w.PutRecord?)
    ensures Settled(ExecAll(t, GraphWrites(fts, fingerprint, g)).value, w)
  {
    var ws := GraphWrites(fts, fingerprint, g);
    forall v | v in ws ensures Publishing(v) && Compatible(w, v) {
      GraphWritesOf(fts, fingerprint, g, v);
      GraphWritesOf(fts, fingerprint, g, w);
    }
    AllHeld(t, ws, w);
  }

  /** Publishing a graph stores all of it. */
  lemma UpsertedGraphIsStored(fts: bool, fingerprint: Fingerprint, t: Tables, g: SyncGraph, u: Tables)
    requires ExecAll(t, GraphWrites(fts, fingerprint, g)) == Some(u)
    ensures GraphRepo(g) != "" && GraphRepo(g) in t.repos && GraphStored(fingerprint, g, u)
  {
    var ws := GraphWrites(fts, fingerprint, g);
    if GraphRepo(g) == "" {
      RejectFails(t, ws);
    } else {
      assert ws[0] == RequireRepo(GraphRepo(g));
      AnchorsOf(fts, fingerprint, g);
      AttachmentsAreWrites(g);
      var rows := NodeWrites(fts, g);
      assert rows[|rows| - 1] == PutRecord(Node(g), StoredRecord(g));
      assert PutRecord(Node(g), StoredRecord(g)) in ws;
      NodeIsSettled(fts, fingerprint, t, g, PutSource(Node(g), StoredSource(g)));
      NodeIsSettled(fts, fingerprint, t, g, PutRecord(Node(g), StoredRecord(g)));
      forall w | w in ws ensures Written(u, w) { EveryGraphWriteIsWritten(fts, fingerprint, t, g, w); }
      StoredFromWrites(fts, fingerprint, g, u);
    }
  }

  lemma StoredFromWrites(fts: bool, fingerprint: Fingerprint, g: SyncGraph, u: Tables)
    requires GraphRepo(g) != "" && forall w | w in GraphWrites(fts, fingerprint, g) :: Written(u, w)
    requires Settled(u, PutSource(Node(g), StoredSource(g))) && Settled(u, PutRecord(Node(g), StoredRecord(g)))
    ensures GraphStored(fingerprint, g, u)
  {
    AnchorsOf(fts, fingerprint, g);
    AttachmentsAreWrites(g);
    forall p | p in g.chunks ensures PieceKey(fingerprint, Node(g), p) in u.chunks {
      assert Written(u, PutChunk(PieceKey(fingerprint, Node(g), p), StoredPiece(Node(g), p)));
    }
  }

  // ---- a batch ----

  /** A committed batch leaves its checkpoint rows, and of every reconciled kind and parent no child that was not kept. */
  lemma CommittedBatchIsClosed(fts: bool, fingerprint: Fingerprint, now: string, t: Tables, b: Batch, s: Tables)
    requires WellFormed(fingerprint, b) && ExecAll(t, BatchWrites(fts, fingerprint, now, b)) == Some(s)
    ensures forall w | w in Reconciled(b) + Checkpoint(now, b) :: Settled(s, w)
    ensures forall r | r in b.reconciled :: StaleChildren(s, r.repo, r.parent, r.kind, Keep(r.keep)) == {}
  {
    var published, closing := Published(fts, fingerprint, now, b), Reconciled(b) + Checkpoint(now, b);
    assert BatchWrites(fts, fingerprint, now, b) == published + closing;
    BatchIsConsistent(fts, fingerprint, now, b);
    forall w | w in closing ensures Settled(s, w) {
      assert w in published + closing;
      BatchSettles(t, published, closing, w);
      assert Present(s, w);
    }
    InEach((r: Reconciliation) => DropStaleChildren(r.repo, r.parent, r.kind, Keep(r.keep)), b.reconciled);
    forall r | r in b.reconciled ensures StaleChildren(s, r.repo, r.parent, r.kind, Keep(r.keep)) == {} {
      assert DropStaleChildren(r.repo, r.parent, r.kind, Keep(r.keep)) in closing;
    }
  }

  lemma {:induction false} PutOnly(ws: seq<Write>, k: CommentKey)
    requires forall w | w in ws :: w.PutComment?
    ensures !Total(ws, k).cleared && (Total(ws, k).put.Some? <==> exists w :: w in ws && w.comment == k)
    decreases |ws|
  {
    if ws != [] {
      PutOnly(ws[1..], k);
      assert forall w :: w in ws <==> w == ws[0] || w in ws[1..];
    }
  }

  /** Replacing a record's comments leaves exactly the given ids. */
  lemma ReplacedCommentsAreExact(t: Tables, r: CommentsReplacement, u: Tables, k: CommentKey)
    requires ExecAll(t, ReplacementWrites(r)) == Some(u) && OfComment(k) == r.node
    ensures k in u.comments <==> exists c :: c in r.comments && c.id == k.comment
  {
    var puts := Each((c: CommentInput) => PutComment(CommentKey(r.node.repo, r.node.id, c.id), StoredComment(c.row)), r.comments);
    var clear := ClearComments(r.node);
    assert ReplacementWrites(r) == [clear] + puts && ([clear] + puts)[1..] == puts;
    var cleared := Exec(t, clear).value;
    assert k !in cleared.comments;
    CommentsFollow(cleared, puts, k);
    PutOnly(puts, k);
    InEach((c: CommentInput) => PutComment(CommentKey(r.node.repo, r.node.id, c.id), StoredComment(c.row)), r.comments);
  }
}
